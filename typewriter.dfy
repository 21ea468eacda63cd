/** The hero-text typing animation of public/js/animations.js. A `TypeWriter`
    cycles through its words: it types the current word one character per
    step, waits, deletes it one character per step, and moves on to the next
    word. Each `type()` call is one step; the delay it passes to `setTimeout`
    before the next step is kept in `pendingDelay`, and the markup it writes
    into the element in `html`. The timer itself is not part of this model. */
module TypeWriterAnimation {
  import opened JsString

  /** The fields `type()` reads and writes. */
  datatype Cursor = Cursor(txt: string, wordIndex: nat, isDeleting: bool)

  /** `words[wordIndex % words.length]` */
  function CurrentWord(words: seq<string>, c: Cursor): string
    requires |words| > 0
  {
    words[c.wordIndex % |words|]
  }

  /** `n` brought into `[0, hi]`, as `substring` does with its end index. */
  function Clamp(n: int, hi: nat): nat
  {
    if n < 0 then 0 else if n > hi then hi else n
  }

  const TypingDelay := 100
  const DeletingDelay := 50
  const NextWordDelay := 500

  /** One `type()` step and the delay it schedules the next one with. While
      typing, the text grows by one character of the current word; once it
      is the whole word the writer switches to deleting and waits `wait`.
      While deleting, it shrinks by one character; once it is empty the
      writer moves to the next word and waits half a second. */
  function Step(words: seq<string>, wait: int, c: Cursor): (r: (Cursor, int))
    requires |words| > 0
    ensures var full := CurrentWord(words, c);
      && r.0.txt <= full
      && |r.0.txt| == Clamp(if c.isDeleting then |c.txt| - 1 else |c.txt| + 1, |full|)
    ensures !c.isDeleting ==>
      r == if r.0.txt == CurrentWord(words, c) then (Cursor(r.0.txt, c.wordIndex, true), wait)
           else (Cursor(r.0.txt, c.wordIndex, false), TypingDelay)
    ensures c.isDeleting ==>
      r == if r.0.txt == [] then (Cursor([], c.wordIndex + 1, false), NextWordDelay)
           else (Cursor(r.0.txt, c.wordIndex, true), DeletingDelay)
    ensures r.0.txt <= CurrentWord(words, r.0)
  {
    var full := CurrentWord(words, c);
    var txt := if c.isDeleting then Substring(full, |c.txt| - 1) else Substring(full, |c.txt| + 1);
    var typeSpeed := if c.isDeleting then TypingDelay / 2 else TypingDelay;
    if !c.isDeleting && txt == full then (Cursor(txt, c.wordIndex, true), wait)
    else if c.isDeleting && txt == [] then (Cursor(txt, c.wordIndex + 1, false), NextWordDelay)
    else (Cursor(txt, c.wordIndex, c.isDeleting), typeSpeed)
  }

  /** `n` steps from `c`: the cursor reached and the time they take. */
  function Run(words: seq<string>, wait: int, c: Cursor, n: nat): (Cursor, int)
    requires |words| > 0
    decreases n
  {
    if n == 0 then (c, 0)
    else
      var (c1, d1) := Step(words, wait, c);
      var (c2, d2) := Run(words, wait, c1, n - 1);
      (c2, d1 + d2)
  }

  lemma {:induction false} RunAppend(words: seq<string>, wait: int, c: Cursor, a: nat, b: nat)
    requires |words| > 0
    ensures var (c1, d1) := Run(words, wait, c, a);
      var (c2, d2) := Run(words, wait, c1, b);
      Run(words, wait, c, a + b) == (c2, d1 + d2)
    decreases a
  {
    if a > 0 {
      var (c1, d1) := Step(words, wait, c);
      RunAppend(words, wait, c1, a - 1, b);
    }
  }

  /** Typing from the first `k` characters of a non-empty word reaches the
      whole word in `|w| - k` steps, at 100 ms a step, the last one waiting
      `wait` and switching to deleting. */
  lemma {:induction false} TypeUp(words: seq<string>, wait: int, i: nat, k: nat)
    requires |words| > 0
    requires k < |words[i % |words|]|
    ensures var w := words[i % |words|];
      Run(words, wait, Cursor(w[..k], i, false), |w| - k) == (Cursor(w, i, true), TypingDelay * (|w| - k - 1) + wait)
    decreases |words[i % |words|]| - k
  {
    var w := words[i % |words|];
    var c := Cursor(w[..k], i, false);
    assert Step(words, wait, c).0.txt == w[..k + 1];
    if k + 1 < |w| {
      TypeUp(words, wait, i, k + 1);
    } else {
      assert w[..k + 1] == w;
    }
  }

  /** Deleting from the first `k > 0` characters of a word empties it in `k`
      steps, at 50 ms a step, the last one waiting half a second and moving
      on to the next word. */
  lemma {:induction false} DeleteDown(words: seq<string>, wait: int, i: nat, k: nat)
    requires |words| > 0
    requires 0 < k <= |words[i % |words|]|
    ensures var w := words[i % |words|];
      Run(words, wait, Cursor(w[..k], i, true), k) == (Cursor([], i + 1, false), DeletingDelay * (k - 1) + NextWordDelay)
    decreases k
  {
    var w := words[i % |words|];
    var c := Cursor(w[..k], i, true);
    assert Step(words, wait, c).0.txt == w[..k - 1];
    if k > 1 {
      DeleteDown(words, wait, i, k - 1);
    }
  }

  /** One full cycle: from an empty text at word `i`, typing and deleting
      that word takes `2 * max(|w|, 1)` steps and
      `150 * (max(|w|, 1) - 1) + wait + 500` milliseconds, and ends with an
      empty text at word `i + 1`. */
  lemma FullCycle(words: seq<string>, wait: int, i: nat)
    requires |words| > 0
    ensures var w := words[i % |words|];
      var n := if |w| == 0 then 1 else |w|;
      Run(words, wait, Cursor([], i, false), 2 * n)
        == (Cursor([], i + 1, false), (TypingDelay + DeletingDelay) * (n - 1) + wait + NextWordDelay)
  {
    var w := words[i % |words|];
    if |w| == 0 {
      assert Run(words, wait, Cursor([], i, true), 1) == (Cursor([], i + 1, false), NextWordDelay);
    } else {
      assert w[..0] == [] && w[..|w|] == w;
      TypeUp(words, wait, i, 0);
      DeleteDown(words, wait, i, |w|);
      RunAppend(words, wait, Cursor([], i, false), |w|, |w|);
    }
  }

  /** What `type()` writes into the element. */
  function Render(txt: string): string
  {
    "<span class=\"txt\">" + txt + "</span>"
  }

  class TypeWriter {
    const words: seq<string>
    const wait: int
    var txt: string
    var wordIndex: nat
    var isDeleting: bool
    var html: string
    var pendingDelay: int

    function State(): Cursor
      reads this
    {
      Cursor(txt, wordIndex, isDeleting)
    }

    /** The text shown is always a prefix of the current word. */
    ghost predicate Valid()
      reads this
    {
      |words| > 0 && txt <= CurrentWord(words, State()) && html == Render(txt)
    }

    /** `new TypeWriter(element, words, wait)`: starts from an empty text at
        the first word, typing, and performs the first step at once. */
    constructor (words: seq<string>, wait: int)
      requires |words| > 0
      ensures Valid()
      ensures this.words == words && this.wait == wait
      ensures (State(), pendingDelay) == Step(words, wait, Cursor([], 0, false))
    {
      this.words := words;
      this.wait := wait;
      txt, wordIndex, isDeleting := [], 0, false;
      new;
      Type();
    }

    /** `type()` */
    method Type()
      requires |words| > 0
      modifies this
      ensures Valid()
      ensures (State(), pendingDelay) == Step(words, wait, old(State()))
    {
      var current := wordIndex % |words|;
      var fullTxt := words[current];
      if isDeleting {
        txt := Substring(fullTxt, |txt| - 1);
      } else {
        txt := Substring(fullTxt, |txt| + 1);
      }
      html := Render(txt);
      var typeSpeed := TypingDelay;
      if isDeleting {
        typeSpeed := typeSpeed / 2;
      }
      if !isDeleting && txt == fullTxt {
        typeSpeed := wait;
        isDeleting := true;
      } else if isDeleting && txt == [] {
        isDeleting := false;
        wordIndex := wordIndex + 1;
        typeSpeed := NextWordDelay;
      }
      pendingDelay := typeSpeed;
    }
  }

  /** The page's writer: three default words and a two-second pause; its
      first step shows "A" and schedules the next in 100 ms. */
  lemma PageDefaults()
    ensures Step(["AI Agents", "Models", "Workflows"], 2000, Cursor([], 0, false)) == (Cursor("A", 0, false), TypingDelay)
  {
    assert "AI Agents"[..1] == "A";
  }
}

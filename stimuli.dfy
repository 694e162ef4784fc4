/**
  The stimuli of the n-back game and the history window that holds them.

  The history is kept newest first and is cut to a fixed number of entries
  after every emission. A guess compares the newest entry with the one
  `level` positions further back, reading a position past the end as
  JavaScript's `undefined`.
 */
module Stimuli {

  /** The letters the game shows. */
  const ALPHABET: seq<string> := ["A", "O", "P", "F"]

  /** The number of entries the history keeps (the `slice(0, 10)` of `update`). */
  const HISTORY_CAP: nat := 10

  predicate IsStimulus(s: string) {
    s in ALPHABET
  }

  predicate AllStimuli(h: seq<string>) {
    forall i :: 0 <= i < |h| ==> IsStimulus(h[i])
  }

  function Min(a: int, b: int): int {
    if a <= b then a else b
  }

  /** The value of the array read `h[i]`: a string inside the array, `undefined` outside it. */
  datatype Slot = Undefined | Defined(value: string)

  function Lookup(h: seq<string>, i: int): Slot {
    if 0 <= i < |h| then Defined(h[i]) else Undefined
  }

  /**
    Whether the newest stimulus equals the one `depth` positions back
    (`numbers[0] === numbers[depth]`). A position outside the history
    reads as `undefined`, which equals no letter; an empty history reads
    `undefined` on both sides and so counts as a match.
   */
  function CorrectGuess(h: seq<string>, depth: int): (r: bool)
    ensures |h| > 0 ==> (r <==> 0 <= depth < |h| && h[0] == h[depth])
    ensures |h| == 0 ==> r
  {
    Lookup(h, 0) == Lookup(h, depth)
  }

  /** One emission: `s` becomes the newest entry and the oldest ones beyond the cap are dropped. */
  function Emit(h: seq<string>, s: string): (r: seq<string>)
    ensures |r| == Min(|h| + 1, HISTORY_CAP)
    ensures r[0] == s
    ensures forall i :: 0 < i < |r| ==> r[i] == h[i - 1]
  {
    var full := [s] + h;
    if |full| <= HISTORY_CAP then full else full[..HISTORY_CAP]
  }

  /** Emission keeps every entry a letter of the alphabet. */
  lemma EmitKeepsStimuli(h: seq<string>, s: string)
    requires AllStimuli(h) && IsStimulus(s)
    ensures AllStimuli(Emit(h, s))
  {
  }

  /** The history after emitting `ss` (oldest first) onto `h`. */
  function EmitAll(h: seq<string>, ss: seq<string>): seq<string>
    decreases |ss|
  {
    if ss == [] then h else Emit(EmitAll(h, ss[..|ss| - 1]), ss[|ss| - 1])
  }

  /**
    The `i`-th most recent stimulus when `ss` (oldest first) has been shown
    after the history `h` (newest first): the reference definition of the
    window that `EmitAll` keeps.
   */
  function Recent(h: seq<string>, ss: seq<string>, i: nat): string
    requires i < |ss| + |h|
  {
    if i < |ss| then ss[|ss| - 1 - i] else h[i - |ss|]
  }

  /** The history holds exactly the most recent stimuli, newest first, up to the cap. */
  lemma {:induction false} EmitAllWindow(h: seq<string>, ss: seq<string>)
    requires |h| <= HISTORY_CAP
    ensures |EmitAll(h, ss)| == Min(|ss| + |h|, HISTORY_CAP)
    ensures forall i :: 0 <= i < |EmitAll(h, ss)| ==> EmitAll(h, ss)[i] == Recent(h, ss, i)
    decreases |ss|
  {
    if ss != [] {
      var prev := ss[..|ss| - 1];
      EmitAllWindow(h, prev);
      var w := EmitAll(h, prev);
      var r := EmitAll(h, ss);
      assert r == Emit(w, ss[|ss| - 1]);
      forall i | 0 <= i < |r|
        ensures r[i] == Recent(h, ss, i)
      {
        if i > 0 {
          assert r[i] == w[i - 1];
          assert Recent(h, prev, i - 1) == Recent(h, ss, i);
        }
      }
    }
  }

  /** Emitting one stimulus and then `rest` is emitting `[x] + rest`. */
  lemma {:induction false} EmitAllCons(h: seq<string>, x: string, rest: seq<string>)
    ensures EmitAll(Emit(h, x), rest) == EmitAll(h, [x] + rest)
    decreases |rest|
  {
    if rest == [] {
      assert EmitAll(h, [x]) == Emit(EmitAll(h, []), x);
    } else {
      var p := rest[..|rest| - 1];
      EmitAllCons(h, x, p);
      assert ([x] + rest)[..|[x] + rest| - 1] == [x] + p;
    }
  }

  /**
    The n-back rule on the emitted sequence: once more than `d` stimuli have
    been shown, a guess at depth `d` is correct iff the current stimulus equals
    the one shown `d` emissions earlier.
   */
  lemma NBackMatch(h: seq<string>, ss: seq<string>, d: int)
    requires |h| <= HISTORY_CAP
    requires 0 < d < HISTORY_CAP && d < |ss|
    ensures CorrectGuess(EmitAll(h, ss), d) <==> ss[|ss| - 1] == ss[|ss| - 1 - d]
  {
    EmitAllWindow(h, ss);
  }

  /**
    When exactly `d` stimuli have been shown, a guess at depth `d` compares the
    current stimulus with the newest entry that was already in the history.
   */
  lemma NBackReachesOlderHistory(h: seq<string>, ss: seq<string>, d: int)
    requires 1 <= |h| <= HISTORY_CAP
    requires 0 < d < HISTORY_CAP && d == |ss|
    ensures CorrectGuess(EmitAll(h, ss), d) <==> ss[|ss| - 1] == h[0]
  {
    EmitAllWindow(h, ss);
  }

  /** A guess deeper than everything ever shown is never correct. */
  lemma NBackBeyondHistory(h: seq<string>, ss: seq<string>, d: int)
    requires |h| <= HISTORY_CAP
    requires |ss| + |h| > 0 && d >= |ss| + |h|
    ensures !CorrectGuess(EmitAll(h, ss), d)
  {
    EmitAllWindow(h, ss);
  }
}

/**
 The terminal sequences that the log removes, as a grammar, and the agreement of
 the scanner with it.
 */
module LogSequences {
  import opened Bytes
  import opened LogText
  import opened Wrappers

  /** Parameter and intermediate bytes of a control sequence. */
  predicate Parameter(u: unit) { 0x20 <= u <= 0x3F }

  predicate Final(u: unit) { 0x40 <= u <= 0x7E }

  /** `v[from..end]` is any number of parameters and one final byte. */
  predicate CsiCloses(v: Text, from: nat, end: nat) {
    from < end <= |v| && Final(v[end - 1]) && forall j | from <= j < end - 1 :: Parameter(v[j])
  }

  predicate Bell(u: unit) { u == 0x07 || u == 0x9C }

  /** A terminator of an operating-system command starts at `k`. */
  predicate Stops(v: Text, k: nat)
    requires k < |v|
  {
    Bell(v[k]) || (v[k] == ESC && k + 1 < |v| && v[k + 1] == BACKSLASH)
  }

  predicate NoStop(v: Text, from: nat, to: nat)
    requires to <= |v|
  {
    forall j | from <= j < to :: !Stops(v, j)
  }

  /** `v[from..end]` ends with the first terminator in it. */
  predicate OscCloses(v: Text, from: nat, end: nat) {
    || (from < end <= |v| && Bell(v[end - 1]) && NoStop(v, from, end - 1))
    || (from + 1 < end <= |v| && v[end - 2] == ESC && v[end - 1] == BACKSLASH && NoStop(v, from, end - 2))
  }

  function Body(v: Text, i: nat): nat
    requires i < |v|
  {
    i + if v[i] == ESC then 2 else 1
  }

  /** A complete sequence stands at `v[i..end]`. */
  predicate Complete(v: Text, i: nat, end: nat)
    requires i < |v|
  {
    (IsCsi(v, i) && CsiCloses(v, Body(v, i), end)) || (IsOsc(v, i) && OscCloses(v, Body(v, i), end))
  }

  lemma {:induction false} CsiEndIff(v: Text, from: nat, end: nat)
    ensures CsiEnd(v, from) == Some(end) <==> CsiCloses(v, from, end)
    decreases |v| - from
  {
    if from < |v| && !Final(v[from]) && Parameter(v[from]) { CsiEndIff(v, from + 1, end); }
  }

  lemma {:induction false} OscEndIff(v: Text, from: nat, end: nat)
    ensures OscEnd(v, from) == Some(end) <==> OscCloses(v, from, end)
    decreases |v| - from
  {
    if from < |v| {
      if Stops(v, from) {
        assert OscCloses(v, from, end) ==> !(from < end - 1 && Bell(v[end - 1]) && NoStop(v, from, end - 1));
      } else {
        OscEndIff(v, from + 1, end);
        assert forall to: nat | from < to <= |v| :: NoStop(v, from, to) <==> NoStop(v, from + 1, to);
      }
    }
  }

  /** The scanner finds exactly the complete sequences of the grammar. */
  lemma SequenceIff(v: Text, i: nat, end: nat)
    requires i < |v|
    ensures SequenceEnd(v, i) == Some(end) <==> Complete(v, i, end)
  {
    CsiEndIff(v, Body(v, i), end);
    OscEndIff(v, Body(v, i), end);
  }

  // ------------------------------------------------ what is removed

  lemma OscMoves(p: Text, v: Text, from: nat, end: nat)
    ensures OscCloses(p + v, |p| + from, |p| + end) <==> OscCloses(v, from, end)
  {
    var w := p + v;
    assert forall j | 0 <= j < |v| :: w[|p| + j] == v[j];
    assert forall j: nat | j < |v| :: Stops(w, |p| + j) <==> Stops(v, j);
    forall to: nat | to <= |v| ensures NoStop(w, |p| + from, |p| + to) <==> NoStop(v, from, to) {
      if NoStop(v, from, to) {
        forall j | |p| + from <= j < |p| + to ensures !Stops(w, j) { assert !Stops(v, j - |p|); }
      } else {
        var j :| from <= j < to && Stops(v, j);
        assert Stops(w, |p| + j);
      }
    }
  }

  lemma CsiMoves(p: Text, v: Text, from: nat, end: nat)
    ensures CsiCloses(p + v, |p| + from, |p| + end) <==> CsiCloses(v, from, end)
  {
    var w := p + v;
    assert forall j | 0 <= j < |v| :: w[|p| + j] == v[j];
    if from < end <= |v| && forall j | from <= j < end - 1 :: Parameter(v[j]) {
      forall j | |p| + from <= j < |p| + end - 1 ensures Parameter(w[j]) { assert Parameter(v[j - |p|]); }
    } else if from < end <= |v| {
      var j :| from <= j < end - 1 && !Parameter(v[j]);
      assert !Parameter(w[|p| + j]);
    }
  }

  /** What stands in front does not matter. */
  lemma CompleteMoves(p: Text, v: Text, i: nat, end: nat)
    requires i < |v|
    ensures Complete(p + v, |p| + i, |p| + end) <==> Complete(v, i, end)
  {
    CsiMoves(p, v, Body(v, i), end);
    OscMoves(p, v, Body(v, i), end);
  }

  lemma SequenceMoves(p: Text, v: Text, i: nat)
    requires i < |v|
    ensures SequenceEnd(p + v, |p| + i) ==
            if SequenceEnd(v, i).Some? then Some(|p| + SequenceEnd(v, i).value) else None
  {
    var there, here := SequenceEnd(p + v, |p| + i), SequenceEnd(v, i);
    if here.Some? {
      SequenceIff(v, i, here.value);
      CompleteMoves(p, v, i, here.value);
      SequenceIff(p + v, |p| + i, |p| + here.value);
    } else if there.Some? {
      SequenceAdvances(p + v, |p| + i);
      SequenceIff(p + v, |p| + i, there.value);
      CompleteMoves(p, v, i, there.value - |p|);
      SequenceIff(v, i, there.value - |p|);
    }
  }

  function EndAt(v: Text, i: nat): Option<nat> { if i < |v| then SequenceEnd(v, i) else None }

  /** `strip` takes one step at `i`, over a sequence or a unit. */
  ghost predicate Strips(strip: (Text, nat) -> Text, ends: (Text, nat) -> Option<nat>, v: Text, i: nat) {
    strip(v, i) ==
    if i >= |v| then []
    else match ends(v, i) case None => [v[i]] + strip(v, i + 1) case Some(end) => strip(v, end)
  }

  ghost predicate EndMoves(ends: (Text, nat) -> Option<nat>, p: Text, v: Text, i: nat) {
    match ends(v, i)
    case None => ends(p + v, |p| + i) == None
    case Some(end) => i < end <= |v| && ends(p + v, |p| + i) == Some(|p| + end)
  }

  lemma {:induction false} MovesBy(strip: (Text, nat) -> Text, ends: (Text, nat) -> Option<nat>, p: Text, v: Text,
                                   i: nat)
    requires i <= |v| && (forall w: Text, k: nat :: Strips(strip, ends, w, k))
    requires forall k: nat | k < |v| :: EndMoves(ends, p, v, k)
    ensures strip(p + v, |p| + i) == strip(v, i)
    decreases |v| - i
  {
    assert Strips(strip, ends, p + v, |p| + i) && Strips(strip, ends, v, i);
    if i < |v| {
      assert EndMoves(ends, p, v, i);
      MovesBy(strip, ends, p, v, if ends(v, i).Some? then ends(v, i).value else i + 1);
    }
  }

  lemma StripMoves(p: Text, v: Text)
    ensures StripFrom(p + v, |p|) == Strip(v)
  {
    forall w: Text, k: nat ensures Strips(StripFrom, EndAt, w, k) { }
    forall k: nat | k < |v| ensures EndMoves(EndAt, p, v, k) {
      SequenceMoves(p, v, k);
      SequenceAdvances(v, k);
    }
    MovesBy(StripFrom, EndAt, p, v, 0);
  }

  lemma OscStays(x: Text, b: Text, from: nat)
    requires OscCloses(x, from, |x|)
    ensures OscCloses(x + b, from, |x|)
  {
    var w := x + b;
    assert forall j | 0 <= j < |x| :: w[j] == x[j];
    forall j: nat | j + 1 < |x| ensures Stops(w, j) <==> Stops(x, j) { }
    if Bell(x[|x| - 1]) && NoStop(x, from, |x| - 1) {
      assert NoStop(w, from, |x| - 1);
    } else {
      assert NoStop(w, from, |x| - 2);
    }
  }

  lemma CompleteStays(x: Text, b: Text)
    requires x != [] && Complete(x, 0, |x|)
    ensures Complete(x + b, 0, |x|)
  {
    assert forall j | 0 <= j < |x| :: (x + b)[j] == x[j];
    if IsOsc(x, 0) && OscCloses(x, Body(x, 0), |x|) { OscStays(x, b, Body(x, 0)); }
  }

  lemma {:induction false} QuietStays(v: Text, i: nat, j: nat)
    requires i <= j <= |v| && forall k | i <= k < j :: !Introducer(v[k])
    ensures StripFrom(v, i) == v[i..j] + StripFrom(v, j)
    decreases j - i
  {
    if i < j {
      QuietStays(v, i + 1, j);
      ConcatAssociates([v[i]], v[i + 1..j], StripFrom(v, j));
      assert v[i..j] == [v[i]] + v[i + 1..j];
    } else {
      NilConcat(StripFrom(v, j));
    }
  }

  /** A complete sequence disappears wherever it stands, and nothing else with it. */
  lemma SequenceDisappears(a: Text, x: Text, b: Text)
    requires x != [] && Complete(x, 0, |x|) && forall u <- a :: !Introducer(u)
    ensures Strip(a + (x + b)) == a + Strip(b)
  {
    var v := a + (x + b);
    assert forall k | 0 <= k < |a| :: v[k] == a[k] && a[k] in a;
    QuietStays(v, 0, |a|);
    assert v[0..|a|] == a;
    StripMoves(a, x + b);
    CompleteStays(x, b);
    SequenceIff(x + b, 0, |x|);
    StripMoves(x, b);
  }

  /** Both introducers, any parameters and a final byte are one such sequence. */
  lemma CsiDisappears(a: Text, parameters: Text, final: unit, b: Text)
    requires (forall u <- a :: !Introducer(u)) && (forall u <- parameters :: Parameter(u)) && Final(final)
    ensures Strip(a + ([ESC, OPEN] + parameters + [final] + b)) == a + Strip(b)
    ensures Strip(a + ([0x9B] + parameters + [final] + b)) == a + Strip(b)
  {
    assert forall j | 0 <= j < |parameters| :: parameters[j] in parameters;
    SequenceDisappears(a, [ESC, OPEN] + parameters + [final], b);
    SequenceDisappears(a, [0x9B] + parameters + [final], b);
  }
}

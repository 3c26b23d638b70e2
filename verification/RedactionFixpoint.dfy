/** Redacting a redacted text changes nothing. */
module RedactionFixpoint {
  import opened Types
  import opened LogText

  /** The loop on the text that is left, as the source keeps it. */
  function Once(t: string): string
    decreases |t|
  {
    match Find(t, 0)
    case None => t
    case Some(p) => Pass(t, 0, p).1 + Once(t[Pass(t, 0, p).0..])
  }

  lemma SeparatorShift(t: string, from: nat, k: nat)
    requires from <= |t|
    ensures SeparatorAt(t[from..], k) <==> SeparatorAt(t, from + k)
  {
  }

  lemma FindShift(t: string, from: nat)
    requires from <= |t|
    ensures Find(t, from) == (match Find(t[from..], 0) case None => None case Some(p) => Some(from + p))
  {
    forall k: nat ensures SeparatorAt(t[from..], k) <==> SeparatorAt(t, from + k) {
      SeparatorShift(t, from, k);
    }
    match Find(t, from)
    case None =>
    case Some(p) => assert SeparatorAt(t[from..], p - from);
  }

  lemma RunEndIs(t: string, q: nat, e: nat)
    requires q <= e <= |t|
    requires forall k :: q <= k < e ==> !EndsUserinfo(t[k])
    requires e < |t| ==> EndsUserinfo(t[e])
    ensures RunEnd(t, q) == e
  {
  }

  lemma RunEndShift(t: string, from: nat, q: nat)
    requires from <= q <= |t|
    ensures RunEnd(t, q) == from + RunEnd(t[from..], q - from)
  {
    var e := RunEnd(t[from..], q - from);
    forall k | q <= k < from + e ensures !EndsUserinfo(t[k]) {
      assert t[k] == t[from..][k - from];
    }
    RunEndIs(t, q, from + e);
  }

  lemma PassShift(t: string, from: nat, p: nat)
    requires from <= p && SeparatorAt(t, p)
    ensures SeparatorAt(t[from..], p - from)
    ensures Pass(t, from, p) == (from + Pass(t[from..], 0, p - from).0, Pass(t[from..], 0, p - from).1)
  {
    RunEndShift(t, from, p + 3);
    assert t[from..p + 3] == t[from..][0..p - from + 3];
  }

  lemma SuffixOfSuffix(t: string, from: nat, next: nat)
    requires from <= next <= |t|
    ensures t[from..][next - from..] == t[next..]
  {
  }

  lemma LoopUnfolds(t: string, from: nat, p: nat)
    requires from <= |t| && Find(t, from) == Some(p)
    ensures Loop(t, from) == Pass(t, from, p).1 + Loop(t, Pass(t, from, p).0)
  {
  }

  lemma OnceUnfolds(t: string, p: nat)
    requires Find(t, 0) == Some(p)
    ensures Once(t) == Pass(t, 0, p).1 + Once(t[Pass(t, 0, p).0..])
  {
  }

  lemma LoopStep(t: string, from: nat, rest: string, p: nat)
    requires from <= |t| && rest == t[from..] && SeparatorAt(rest, p) && Find(t, from) == Some(from + p)
    ensures Loop(t, from) == Pass(rest, 0, p).1 + Loop(t, from + Pass(rest, 0, p).0)
  {
    hide Pass, Find, Loop, RunEnd;
    PassShift(t, from, from + p);
    LoopUnfolds(t, from, from + p);
  }

  ghost predicate Agree(t: string, from: nat, rest: string)
    requires from <= |t|
  {
    Loop(t, from) == Once(rest)
  }

  lemma AgreeAtEnd(t: string, from: nat, rest: string)
    requires from <= |t| && rest == t[from..] && Find(t, from) == None && Find(rest, 0) == None
    ensures Agree(t, from, rest)
  {
  }

  lemma AgreeBefore(t: string, from: nat, rest: string, p: nat)
    requires from <= |t| && rest == t[from..] && Find(rest, 0) == Some(p) && Find(t, from) == Some(from + p)
    requires from + Pass(rest, 0, p).0 <= |t| && Agree(t, from + Pass(rest, 0, p).0, rest[Pass(rest, 0, p).0..])
    ensures Agree(t, from, rest)
  {
    LoopStep(t, from, rest, p);
    OnceUnfolds(rest, p);
  }

  lemma {:induction false} LoopIsOnce(t: string, from: nat, rest: string)
    requires from <= |t| && rest == t[from..]
    ensures Agree(t, from, rest)
    decreases |rest|
  {
    FindShift(t, from);
    var found := Find(rest, 0);
    if found.None? {
      AgreeAtEnd(t, from, rest);
    } else {
      var next := Pass(rest, 0, found.value).0;
      SuffixOfSuffix(t, from, from + next);
      LoopIsOnce(t, from + next, rest[next..]);
      AgreeBefore(t, from, rest, found.value);
    }
  }

  /** Everything up to the first separator stays, and it stays the first separator. */
  lemma HeadStays(t: string, p: nat)
    requires Find(t, 0) == Some(p)
    ensures var o := Once(t);
            |o| >= p + 3 && o[..p + 3] == t[..p + 3] && Find(o, 0) == Some(p)
  {
    var o := Once(t);
    var appended := Pass(t, 0, p).1;
    assert appended[..p + 3] == t[..p + 3];
    assert o[..p + 3] == appended[..p + 3];
    SameSeparators(o, t, p);
  }

  lemma SameSeparators(o: string, t: string, p: nat)
    requires p + 3 <= |o| && p + 3 <= |t| && o[..p + 3] == t[..p + 3]
    requires Find(t, 0) == Some(p)
    ensures Find(o, 0) == Some(p)
  {
    assert forall k :: 0 <= k < p + 3 ==> o[k] == o[..p + 3][k] == t[k];
    forall k: nat | k < p ensures !SeparatorAt(o, k) {
      assert !SeparatorAt(t, k);
    }
    assert SeparatorAt(o, p);
  }

  lemma FirstStays(t: string)
    requires |t| > 0
    ensures |Once(t)| > 0 && Once(t)[0] == t[0]
  {
    match Find(t, 0)
    case None =>
    case Some(p) =>
      HeadStays(t, p);
      assert Once(t)[0] == Once(t)[..p + 3][0];
  }

  /** A run that redaction left alone still ends at the same place on the same character. */
  lemma RunStays(t: string)
    ensures var e := RunEnd(t, 0);
            && RunEnd(Once(t), 0) == e
            && (e < |t| <==> e < |Once(t)|)
            && (e < |t| ==> Once(t)[e] == t[e])
  {
    match Find(t, 0)
    case None =>
    case Some(p) =>
      HeadStays(t, p);
      var o := Once(t);
      var e := RunEnd(t, 0);
      assert EndsUserinfo(t[p + 1]);
      assert e <= p + 1;
      assert forall k :: 0 <= k < p + 3 ==> o[k] == o[..p + 3][k] == t[k];
      RunEndIs(o, 0, e);
  }

  /** Where the first pass left the text alone, the second does. */
  lemma PassAgainPlain(t: string, p: nat, o: string)
    requires Find(t, 0) == Some(p) && p + 3 <= |o| && o[0..p + 3] == t[0..p + 3]
    requires Pass(t, 0, p).0 == p + 3 && o[p + 3..] == Once(t[p + 3..])
    ensures SeparatorAt(o, p) && Pass(o, 0, p) == Pass(t, 0, p)
  {
    var q := p + 3;
    assert forall k :: 0 <= k < q ==> o[k] == o[0..q][k] == t[0..q][k] == t[k];
    RunEndShift(t, q, q);
    RunEndShift(o, q, q);
    RunStays(t[q..]);
  }

  /** Where it redacted, the second redacts the stars. */
  lemma PassAgainStars(t: string, p: nat, o: string, again: string)
    requires Find(t, 0) == Some(p) && p + 3 <= |o| && o[0..p + 3] == t[0..p + 3]
    requires Pass(t, 0, p).0 != p + 3 && o[p + 3..] == "***" + again && again != "" && again[0] == '@'
    ensures SeparatorAt(o, p) && Pass(o, 0, p) == (p + 6, Pass(t, 0, p).1) && o[p + 6..] == again
  {
    var q := p + 3;
    assert forall k :: 0 <= k < q ==> o[k] == o[0..q][k] == t[0..q][k] == t[k];
    assert forall k :: q <= k < q + 3 ==> o[k] == o[q..][k - q] == '*';
    assert o[q + 3] == o[q..][3];
    RunEndIs(o, q, q + 3);
  }

  /** The loop decides the same about the same separator the second time. */
  lemma PassAgain(t: string, p: nat)
    requires Find(t, 0) == Some(p)
    ensures var o := Once(t);
            Find(o, 0) == Some(p) && Pass(o, 0, p).1 == Pass(t, 0, p).1
            && o[Pass(o, 0, p).0..] == Once(t[Pass(t, 0, p).0..])
  {
    HeadStays(t, p);
    var o, q := Once(t), p + 3;
    var (next, appended) := Pass(t, 0, p);
    var rest := t[next..];
    assert o == appended + Once(rest);
    if next == q {
      assert o[q..] == Once(rest);
      PassAgainPlain(t, p, o);
    } else {
      FirstStays(rest);
      assert o[q..] == "***" + Once(rest);
      PassAgainStars(t, p, o, Once(rest));
    }
  }

  lemma {:induction false} OnceTwice(t: string)
    ensures Once(Once(t)) == Once(t)
    decreases |t|
  {
    match Find(t, 0)
    case None =>
    case Some(p) =>
      PassAgain(t, p);
      OnceTwice(t[Pass(t, 0, p).0..]);
  }

  /** The result of redaction is a fixed point of redaction. */
  lemma RedactionIsIdempotent(text: string)
    ensures Redacted(Redacted(text, 0), 0) == Redacted(text, 0)
  {
    RedactedIsOnce(text);
    OnceTwice(text);
    RedactedIsOnce(Redacted(text, 0));
  }

  lemma RedactedIsOnce(text: string)
    ensures Redacted(text, 0) == Once(text)
  {
    LoopMeans(text, 0);
    assert text[0..] == text;
    LoopIsOnce(text, 0, text);
    assert Agree(text, 0, text);
  }

  // ----- what is left of userinfo -----

  ghost predicate RunIsStars(t: string, q: nat) {
    q <= |t| && t[q..RunEnd(t, q)] == "***"
  }

  /** No userinfo starts between where the loop stands and where its next pass ends, other than right
      after the separator. */
  lemma NoneBetween(t: string, from: nat, p: nat, q: nat)
    requires Stands(t, from) && Find(t, from) == Some(p)
    requires from <= q < Pass(t, from, p).0 && UserinfoAt(t, q)
    ensures q == p + 3
  {
    PassDecides(t, from, p);
    NothingHiddenToSeparator(t, from, p);
    if q > p + 3 {
      assert EndsUserinfo(t[q - 1]);
    }
  }

  /** If redaction leaves the rest of the text alone, its next userinfo is three stars. */
  lemma NextIsStars(t: string, from: nat, p: nat)
    requires Stands(t, from) && Find(t, from) == Some(p) && Redacted(t, from) == t[from..]
    requires UserinfoAt(t, p + 3)
    ensures RunIsStars(t, p + 3)
    ensures Redacted(t, Pass(t, from, p).0) == t[Pass(t, from, p).0..]
  {
    hide Redacted, Stands, Pass, Find;
    var q, e := p + 3, RunEnd(t, p + 3);
    var rest := Redacted(t, e);
    assert Redacted(t, from) == t[from..q] + "***" + rest && Pass(t, from, p).0 == e by {
      PassDecides(t, from, p);
      PassMeans(t, from, p);
    }
    StartsAtSign(t, e, q);
    StarsFit(t, from, q, rest);
    RunEndIs(t, q, q + 3);
  }

  /** What follows a userinfo starts with its `@`. */
  lemma StartsAtSign(t: string, e: nat, q: nat)
    requires UserinfoAt(t, q) && e == RunEnd(t, q)
    ensures Redacted(t, e) != "" && Redacted(t, e)[0] == '@'
  {
    assert EndsUserinfo(t[e]);
    assert forall r: nat :: r <= e && UserinfoAt(t, r) ==> RunEnd(t, r) <= e;
    assert !UserinfoAt(t, e) && !Hidden(t, e);
    PlainOne(t, e);
  }

  lemma StarsFit(t: string, from: nat, q: nat, rest: string)
    requires from <= q <= |t| && t[from..] == t[from..q] + "***" + rest && rest != "" && rest[0] == '@'
    ensures q + 3 < |t| && t[q..q + 3] == "***" && t[q + 3] == '@' && t[q + 3..] == rest
  {
    var s := t[from..];
    var n := q - from;
    assert s == t[from..q] + ("***" + rest);
    assert s[n..] == "***" + rest;
    assert t[q..] == s[n..];
  }

  lemma NextIsLeft(t: string, from: nat, p: nat)
    requires Stands(t, from) && Find(t, from) == Some(p) && Redacted(t, from) == t[from..]
    requires !UserinfoAt(t, p + 3)
    ensures Redacted(t, Pass(t, from, p).0) == t[Pass(t, from, p).0..]
  {
    PassDecides(t, from, p);
    PassMeans(t, from, p);
    assert t[from..][p + 3 - from..] == t[p + 3..];
  }

  lemma NoneLeft(t: string, from: nat, q: nat)
    requires Stands(t, from) && Find(t, from) == None && from <= q < |t|
    ensures !UserinfoAt(t, q)
  {
    NothingHiddenBefore(t, from, |t|, q);
  }

  lemma PassLeaves(t: string, from: nat, p: nat)
    requires Stands(t, from) && Find(t, from) == Some(p) && Redacted(t, from) == t[from..]
    ensures var next := Pass(t, from, p).0;
            Stands(t, next) && Redacted(t, next) == t[next..]
  {
    PassStands(t, from, p);
    if UserinfoAt(t, p + 3) {
      NextIsStars(t, from, p);
    } else {
      NextIsLeft(t, from, p);
    }
  }

  lemma {:induction false} StarsFrom(t: string, from: nat, q: nat)
    requires Stands(t, from) && Redacted(t, from) == t[from..]
    requires from <= q && UserinfoAt(t, q)
    ensures RunIsStars(t, q)
    decreases |t| - from
  {
    hide Redacted, Pass, Find;
    match Find(t, from)
    case None => NoneLeft(t, from, q);
    case Some(p) =>
      if q < Pass(t, from, p).0 {
        NoneBetween(t, from, p, q);
        NextIsStars(t, from, p);
      } else {
        PassLeaves(t, from, p);
        StarsFrom(t, Pass(t, from, p).0, q);
      }
  }

  /** After redaction every userinfo of a URL is exactly `***`. */
  lemma OnlyStarsAreLeft(text: string, q: nat)
    requires UserinfoAt(Redacted(text, 0), q)
    ensures var r := Redacted(text, 0);
            r[q..RunEnd(r, q)] == "***"
  {
    var r := Redacted(text, 0);
    RedactionIsIdempotent(text);
    assert r[0..] == r;
    StarsFrom(r, 0, q);
    assert RunIsStars(r, q);
  }
}

/** `src/api/logger.rs`: redaction of URL credentials, as the loop computes it and as its meaning. */
module LogText {
  import opened Types

  /** `char::is_whitespace`: the Unicode property White_Space. */
  predicate IsWhitespace(c: char) {
    var n := c as int;
    9 <= n <= 13 || n == 0x20 || n == 0x85 || n == 0xA0 || n == 0x1680 || 0x2000 <= n <= 0x200A
    || n == 0x2028 || n == 0x2029 || n == 0x202F || n == 0x205F || n == 0x3000
  }

  predicate IsSchemeChar(c: char) {
    'a' <= c <= 'z' || 'A' <= c <= 'Z' || '0' <= c <= '9' || c == '+' || c == '-' || c == '.'
  }

  predicate SeparatorAt(text: string, p: nat) {
    p + 3 <= |text| && text[p] == ':' && text[p + 1] == '/' && text[p + 2] == '/'
  }

  /** `rest.find("://")` from `from` on. */
  function Find(text: string, from: nat): (p: Option<nat>)
    requires from <= |text|
    ensures p.None? ==> forall k: nat :: from <= k ==> !SeparatorAt(text, k)
    ensures p.Some? ==> from <= p.value && SeparatorAt(text, p.value)
                        && forall k: nat :: from <= k < p.value ==> !SeparatorAt(text, k)
    decreases |text| - from
  {
    if SeparatorAt(text, from) then Some(from)
    else if from == |text| then None
    else Find(text, from + 1)
  }

  predicate EndsUserinfo(c: char) {
    c == '/' || c == '@' || IsWhitespace(c)
  }

  /** Where the run of characters that can be userinfo ends, from `q` on. */
  function RunEnd(text: string, q: nat): (e: nat)
    requires q <= |text|
    ensures q <= e <= |text|
    ensures forall k :: q <= k < e ==> !EndsUserinfo(text[k])
    ensures e < |text| ==> EndsUserinfo(text[e])
    decreases |text| - q
  {
    if q == |text| || EndsUserinfo(text[q]) then q else RunEnd(text, q + 1)
  }

  // ----- what redaction means -----

  /** The userinfo of a URL starts at `q`: a scheme and `://` before it, then a non-empty run up to
      an `@`. */
  predicate UserinfoAt(text: string, q: nat) {
    && 4 <= q <= |text| && SeparatorAt(text, q - 3) && IsSchemeChar(text[q - 4])
    && q < RunEnd(text, q) < |text| && text[RunEnd(text, q)] == '@'
  }

  predicate Hidden(text: string, k: nat)
    requires k < |text|
  {
    exists q: nat :: q <= k && UserinfoAt(text, q) && k < RunEnd(text, q)
  }

  /** Each userinfo becomes `***`, everything else stays. */
  function Redacted(text: string, k: nat): string
    requires k <= |text|
    decreases |text| - k
  {
    if k == |text| then ""
    else if UserinfoAt(text, k) then "***" + Redacted(text, k + 1)
    else if Hidden(text, k) then Redacted(text, k + 1)
    else [text[k]] + Redacted(text, k + 1)
  }

  // ----- what the loop does -----

  /** One pass of the loop of `redact_url_userinfo`: where it goes on, and what it appends. */
  function Pass(text: string, from: nat, p: nat): (next: (nat, string))
    requires from <= p && SeparatorAt(text, p)
    ensures p + 3 <= next.0 <= |text|
  {
    var q := p + 3;
    var head := text[from..q];
    if from < p && IsSchemeChar(text[p - 1]) then
      var end := RunEnd(text, q);
      if end > q && end < |text| && text[end] == '@' then (end, head + "***") else (q, head)
    else (q, head)
  }

  function Loop(text: string, from: nat): string
    requires from <= |text|
    decreases |text| - from
  {
    match Find(text, from)
    case None => text[from..]
    case Some(p) => Pass(text, from, p).1 + Loop(text, Pass(text, from, p).0)
  }

  /** Where the loop may stand: every userinfo that starts up to here has ended, and a scheme
      character just before is not part of an unseen separator. */
  ghost predicate Stands(text: string, at: nat) {
    && at <= |text|
    && (forall q: nat :: q <= at && UserinfoAt(text, q) ==> RunEnd(text, q) <= at)
    && (at == 0 || (at < |text| && text[at] == '@') || (at >= 3 && SeparatorAt(text, at - 3)))
  }

  lemma PlainOne(text: string, k: nat)
    requires k < |text| && !UserinfoAt(text, k) && !Hidden(text, k)
    ensures Redacted(text, k) == [text[k]] + Redacted(text, k + 1)
  {
  }

  lemma {:induction false} PlainCopied(text: string, from: nat, to: nat)
    requires from <= to <= |text|
    requires forall k :: from <= k < to ==> !UserinfoAt(text, k) && !Hidden(text, k)
    ensures Redacted(text, from) == text[from..to] + Redacted(text, to)
    decreases |text| - from
  {
    if from < to {
      PlainOne(text, from);
      PlainCopied(text, from + 1, to);
      assert text[from..to] == [text[from]] + text[from + 1..to];
      Assoc([text[from]], text[from + 1..to], Redacted(text, to));
    } else {
      assert text[from..to] == "";
    }
  }

  lemma DropOne(text: string, q: nat, k: nat)
    requires UserinfoAt(text, q) && q < k < RunEnd(text, q)
    ensures Redacted(text, k) == Redacted(text, k + 1)
  {
    assert Hidden(text, k);
    assert !EndsUserinfo(text[k - 1]);
    assert !UserinfoAt(text, k);
  }

  /** Inside a userinfo nothing is copied. */
  lemma {:induction false} RunDropped(text: string, q: nat, k: nat)
    requires UserinfoAt(text, q) && q < k <= RunEnd(text, q)
    ensures Redacted(text, k) == Redacted(text, RunEnd(text, q))
    decreases |text| - k
  {
    hide UserinfoAt, Hidden, Redacted, RunEnd;
    if k < RunEnd(text, q) {
      DropOne(text, q, k);
      RunDropped(text, q, k + 1);
    }
  }

  /** Up to and with the next separator nothing is hidden. */
  lemma NothingHiddenBefore(text: string, from: nat, to: nat, k: nat)
    requires Stands(text, from) && from <= k < to <= |text|
    requires forall j: nat :: from <= j && j + 3 < to ==> !SeparatorAt(text, j)
    ensures !Hidden(text, k) && !UserinfoAt(text, k)
  {
    forall q: nat | q <= k && UserinfoAt(text, q)
      ensures RunEnd(text, q) <= k
    {
    }
  }

  lemma NothingHiddenToSeparator(text: string, from: nat, p: nat)
    requires Stands(text, from) && Find(text, from) == Some(p)
    ensures forall k :: from <= k < p + 3 ==> !UserinfoAt(text, k) && !Hidden(text, k)
  {
    forall k | from <= k < p + 3 ensures !UserinfoAt(text, k) && !Hidden(text, k) {
      NothingHiddenBefore(text, from, p + 3, k);
    }
  }

  /** The loop's test for credentials is the meaning's. */
  lemma PassDecides(text: string, from: nat, p: nat)
    requires Stands(text, from) && Find(text, from) == Some(p)
    ensures var (next, appended) := Pass(text, from, p);
            if UserinfoAt(text, p + 3)
            then next == RunEnd(text, p + 3) && appended == text[from..p + 3] + "***"
            else next == p + 3 && appended == text[from..p + 3]
  {
  }

  lemma PassStands(text: string, from: nat, p: nat)
    requires Stands(text, from) && Find(text, from) == Some(p)
    ensures Stands(text, Pass(text, from, p).0)
  {
    var q := p + 3;
    var next := Pass(text, from, p).0;
    PassDecides(text, from, p);
    NothingHiddenToSeparator(text, from, p);
    forall r: nat | r <= next && UserinfoAt(text, r) ensures RunEnd(text, r) <= next {
      if q < r {
        assert EndsUserinfo(text[r - 1]);
      }
    }
  }

  lemma UserinfoHidden(text: string, q: nat)
    requires UserinfoAt(text, q)
    ensures Redacted(text, q) == "***" + Redacted(text, RunEnd(text, q))
  {
    UserinfoStarts(text, q);
    RunDropped(text, q, q + 1);
    hide Redacted, RunEnd;
  }

  lemma UserinfoStarts(text: string, q: nat)
    requires UserinfoAt(text, q)
    ensures Redacted(text, q) == "***" + Redacted(text, q + 1)
  {
  }

  lemma Assoc(a: string, b: string, c: string)
    ensures (a + b) + c == a + (b + c)
  {
  }

  lemma PassMeans(text: string, from: nat, p: nat)
    requires Stands(text, from) && Find(text, from) == Some(p)
    ensures Redacted(text, from) == Pass(text, from, p).1 + Redacted(text, Pass(text, from, p).0)
  {
    hide Stands, Find, Hidden;
    var q := p + 3;
    NothingHiddenToSeparator(text, from, p);
    PlainCopied(text, from, q);
    PassDecides(text, from, p);
    if UserinfoAt(text, q) {
      UserinfoHidden(text, q);
      Assoc(text[from..q], "***", Redacted(text, RunEnd(text, q)));
    }
  }

  /** The loop computes the meaning. */
  lemma {:induction false} LoopMeans(text: string, from: nat)
    requires Stands(text, from)
    ensures Loop(text, from) == Redacted(text, from)
    decreases |text| - from
  {
    match Find(text, from)
    case None =>
      forall k | from <= k < |text| ensures !UserinfoAt(text, k) && !Hidden(text, k) {
        NothingHiddenBefore(text, from, |text|, k);
      }
      PlainCopied(text, from, |text|);
    case Some(p) =>
      PassStands(text, from, p);
      PassMeans(text, from, p);
      LoopMeans(text, Pass(text, from, p).0);
  }

  /** The body of the loop, on the separator found at `p`. */
  method RedactNext(text: string, from: nat, p: nat) returns (next: nat, appended: string)
    requires from <= p && SeparatorAt(text, p)
    ensures (next, appended) == Pass(text, from, p)
  {
    appended := text[from..p + 3];
    next := p + 3;
    var hasScheme := from < p && IsSchemeChar(text[p - 1]);
    if hasScheme {
      var end := RunEnd(text, next);
      if end > next && end < |text| && text[end] == '@' {
        appended := appended + "***";
        next := end;
      }
    }
  }

  /** `redact_url_userinfo`. */
  method RedactUrlUserinfo(text: string) returns (out: string)
    ensures out == Redacted(text, 0)
  {
    LoopMeans(text, 0);
    out := "";
    var from := 0;
    var found := Find(text, from);
    ghost var whole := Loop(text, 0);
    while found.Some?
      invariant from <= |text| && found == Find(text, from)
      invariant out + Loop(text, from) == whole
      decreases |text| - from
    {
      var next, appended := RedactNext(text, from, found.value);
      Assoc(out, appended, Loop(text, next));
      out := out + appended;
      from := next;
      found := Find(text, from);
    }
    out := out + text[from..];
  }
}

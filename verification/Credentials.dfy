/** `src/api/logger.rs`: what redaction does to URLs that are spelled out as text. */
module Credentials {
  import opened Types
  import opened LogText
  import opened RedactionFixpoint

  const SMALL := "abcdefghijklmnopqrstuvwxyz"
  const CAPITAL := "ABCDEFGHIJKLMNOPQRSTUVWXYZ"

  /** The characters that can end the scheme of a URL. */
  predicate EndsScheme(c: char) {
    c in SMALL || c in CAPITAL || c in "0123456789+-."
  }

  /** The characters with the Unicode property White_Space. */
  const WHITE_SPACE := "\t\n\U{B}\U{C}\r \U{85}\U{A0}\U{1680}\U{2000}\U{2001}\U{2002}\U{2003}\U{2004}\U{2005}\U{2006}\U{2007}\U{2008}\U{2009}\U{200A}\U{2028}\U{2029}\U{202F}\U{205F}\U{3000}"

  lemma SmallMeans(c: char)
    ensures 'a' <= c <= 'z' <==> c in SMALL
  {
    if 'a' <= c <= 'z' {
      assert SMALL[c as int - 'a' as int] == c;
    }
  }

  lemma CapitalMeans(c: char)
    ensures 'A' <= c <= 'Z' <==> c in CAPITAL
  {
    if 'A' <= c <= 'Z' {
      assert CAPITAL[c as int - 'A' as int] == c;
    }
  }

  lemma SchemeMeans(c: char)
    ensures IsSchemeChar(c) <==> EndsScheme(c)
  {
    SmallMeans(c);
    CapitalMeans(c);
    hide SMALL, CAPITAL;
    var others := "0123456789+-.";
    if '0' <= c <= '9' {
      assert others[c as int - '0' as int] == c;
    }
  }

  lemma WhiteSpaceMeans(c: char)
    ensures IsWhitespace(c) <==> c in WHITE_SPACE
  {
  }

  // ----- which texts change -----

  /** The text is a URL with credentials, and whatever is before and after it. */
  predicate HasCredentials(text: string, before: string, c: char, user: string, after: string) {
    && text == before + [c] + "://" + user + "@" + after
    && EndsScheme(c) && user != ""
    && forall k :: 0 <= k < |user| ==> user[k] != '/' && user[k] != '@' && user[k] !in WHITE_SPACE
  }

  lemma RunOf(text: string, q: nat, user: string, after: string)
    requires q <= |text| && text[q..] == user + "@" + after
    requires forall k :: 0 <= k < |user| ==> !EndsUserinfo(user[k])
    ensures RunEnd(text, q) == q + |user| && text[RunEnd(text, q)] == '@'
    ensures text[q..RunEnd(text, q)] == user && text[RunEnd(text, q)..] == "@" + after
  {
    var rest := text[q..];
    assert forall k :: 0 <= k < |user| ==> text[q + k] == rest[k] == user[k];
    assert text[q + |user|] == rest[|user|] == '@';
    RunEndIs(text, q, q + |user|);
    assert text[q..q + |user|] == rest[..|user|] && text[q + |user|..] == rest[|user|..];
  }

  lemma PlacesOf(text: string, before: string, c: char, user: string, after: string)
    requires text == before + [c] + "://" + user + "@" + after
    ensures |before| + 4 <= |text| && SeparatorAt(text, |before| + 1) && text[|before|] == c
    ensures text[|before| + 4..] == user + "@" + after && text[..|before| + 4] == before + [c] + "://"
  {
    var head := before + [c] + "://";
    assert text == head + (user + "@" + after);
    assert forall k :: 0 <= k < |head| ==> text[k] == head[k];
  }

  lemma UserIsClean(user: string)
    requires forall k :: 0 <= k < |user| ==> user[k] != '/' && user[k] != '@' && user[k] !in WHITE_SPACE
    ensures forall k :: 0 <= k < |user| ==> !EndsUserinfo(user[k])
  {
    hide WHITE_SPACE;
    forall k | 0 <= k < |user| ensures !EndsUserinfo(user[k]) {
      WhiteSpaceMeans(user[k]);
    }
  }

  lemma CredentialsAreUserinfo(text: string, before: string, c: char, user: string, after: string)
    requires HasCredentials(text, before, c, user, after)
    ensures var q := |before| + 4;
            q <= |text| && UserinfoAt(text, q) && text[q..RunEnd(text, q)] == user && text[RunEnd(text, q)..] == "@" + after
  {
    hide WHITE_SPACE, SMALL, CAPITAL, EndsScheme, IsSchemeChar, RunEnd;
    PlacesOf(text, before, c, user, after);
    UserIsClean(user);
    RunOf(text, |before| + 4, user, after);
    SchemeMeans(c);
  }

  lemma UserinfoIsCredentials(text: string, q: nat) returns (before: string, c: char, user: string, after: string)
    requires UserinfoAt(text, q)
    ensures HasCredentials(text, before, c, user, after)
    ensures user == text[q..RunEnd(text, q)]
  {
    hide WHITE_SPACE, SMALL, CAPITAL, EndsScheme, IsSchemeChar;
    var e := RunEnd(text, q);
    before, c, user, after := text[..q - 4], text[q - 4], text[q..e], text[e + 1..];
    assert text == before + [c] + "://" + user + "@" + after;
    SchemeMeans(c);
    forall k | 0 <= k < |user| ensures user[k] != '/' && user[k] != '@' && user[k] !in WHITE_SPACE {
      assert user[k] == text[q + k];
      WhiteSpaceMeans(user[k]);
    }
  }

  lemma CutThrice(text: string, from: nat, q: nat, e: nat)
    requires from <= q <= e <= |text|
    ensures text[from..] == text[from..q] + text[q..e] + text[e..]
    ensures text[from..] == text[from..q] + text[q..]
  {
  }

  lemma PassChangesNothing(text: string, from: nat, p: nat)
    requires from <= p && SeparatorAt(text, p)
    requires UserinfoAt(text, p + 3) ==> text[p + 3..RunEnd(text, p + 3)] == "***"
    ensures text[from..] == Pass(text, from, p).1 + text[Pass(text, from, p).0..]
  {
    var q := p + 3;
    CutThrice(text, from, q, RunEnd(text, q));
    hide RunEnd;
  }

  lemma {:induction false} NothingToHide(text: string, from: nat)
    requires from <= |text|
    requires forall q :: 0 <= q <= |text| && UserinfoAt(text, q) ==> text[q..RunEnd(text, q)] == "***"
    ensures Loop(text, from) == text[from..]
    decreases |text| - from
  {
    hide UserinfoAt, RunEnd, Pass;
    match Find(text, from)
    case None =>
    case Some(p) =>
      PassChangesNothing(text, from, p);
      NothingToHide(text, Pass(text, from, p).0);
  }

  /** Redaction changes a text exactly if it holds a URL with credentials that are not already
      `***`. */
  lemma ChangedExactlyIf(text: string)
    ensures Redacted(text, 0) != text <==>
              exists before, c, user, after :: HasCredentials(text, before, c, user, after) && user != "***"
  {
    hide HasCredentials, UserinfoAt, RunEnd, Redacted, Loop;
    forall before, c, user, after | HasCredentials(text, before, c, user, after) && user != "***"
      ensures Redacted(text, 0) != text
    {
      CredentialsAreUserinfo(text, before, c, user, after);
      if Redacted(text, 0) == text {
        OnlyStarsAreLeft(text, |before| + 4);
      }
    }
    if !exists before, c, user, after :: HasCredentials(text, before, c, user, after) && user != "***" {
      forall q | 0 <= q <= |text| && UserinfoAt(text, q) ensures text[q..RunEnd(text, q)] == "***" {
        var before, c, user, after := UserinfoIsCredentials(text, q);
      }
      NothingToHide(text, 0);
      StandsAtStart(text);
      LoopMeans(text, 0);
      assert text[0..] == text;
    }
  }

  lemma StandsAtStart(text: string)
    ensures Stands(text, 0)
  {
  }

  lemma FirstSeparator(text: string, before: string, c: char, user: string, after: string)
    requires HasCredentials(text, before, c, user, after) && ':' !in before
    ensures Find(text, 0) == Some(|before| + 1)
  {
    hide WHITE_SPACE, SMALL, CAPITAL, EndsScheme;
    PlacesOf(text, before, c, user, after);
    SchemeMeans(c);
    assert forall k: nat :: k < |before| ==> text[k] == before[k];
    assert forall k: nat :: k <= |before| ==> !SeparatorAt(text, k);
  }

  lemma FirstPass(text: string, before: string, c: char, user: string, after: string)
    requires HasCredentials(text, before, c, user, after)
    ensures |before| + 1 <= |text| && SeparatorAt(text, |before| + 1)
    ensures var (next, appended) := Pass(text, 0, |before| + 1);
            appended == before + [c] + "://" + "***" && text[next..] == "@" + after
  {
    PlacesOf(text, before, c, user, after);
    CredentialsAreUserinfo(text, before, c, user, after);
    hide WHITE_SPACE, SMALL, CAPITAL, EndsScheme, IsSchemeChar, RunEnd, HasCredentials;
    assert text[0..|before| + 4] == text[..|before| + 4];
  }

  /** The credentials of the first URL of a text become `***`, and redaction goes on after them. */
  lemma FirstCredentialsHidden(text: string, before: string, c: char, user: string, after: string)
    requires HasCredentials(text, before, c, user, after) && ':' !in before
    ensures Redacted(text, 0) == before + [c] + "://" + "***" + Redacted("@" + after, 0)
  {
    hide RunEnd, Redacted, HasCredentials, Once, Pass, Find;
    FirstSeparator(text, before, c, user, after);
    FirstPass(text, before, c, user, after);
    RedactedIsOnce(text);
    OnceUnfolds(text, |before| + 1);
    RedactedIsOnce("@" + after);
  }
}

/** The bearer-token check of the preferences API
    (backend/routes/preferences.py): the header must start with "Bearer ",
    the token is the last field of splitting it on "Bearer ", and the user id
    is whatever verifying that token yields (a partial take on the scheme of
    section 2.1 of RFC 6750). Token verification is a parameter. */
module PreferencesRoute {
  import opened Types

  const BEARER: string := "Bearer "
  const NOT_BEARER: string := "Authorization header must be Bearer token"

  predicate StartsWith(s: string, prefix: string) {
    |prefix| <= |s| && s[..|prefix|] == prefix
  }

  /** `sep` occurs in `s` starting at position `i`. */
  predicate OccursAt(s: string, sep: string, i: int) {
    0 <= i <= |s| && StartsWith(s[i..], sep)
  }

  predicate Contains(s: string, sep: string) {
    exists i :: 0 <= i <= |s| && OccursAt(s, sep, i)
  }

  /** Python's `s.split(sep)` for a non-empty separator: the text between
      the occurrences found scanning from the left. */
  function Fields(s: string, sep: string): (r: seq<string>)
    requires |sep| > 0
    ensures |r| >= 1
    decreases |s|
  {
    if StartsWith(s, sep) then [""] + Fields(s[|sep|..], sep)
    else if s == [] then [""]
    else
      var rest := Fields(s[1..], sep);
      [[s[0]] + rest[0]] + rest[1..]
  }

  /** Past a position where `sep` does not start, `s` contains `sep` iff its
      tail does. */
  lemma ContainsTail(s: string, sep: string)
    requires |sep| > 0 && s != [] && !StartsWith(s, sep)
    ensures Contains(s, sep) <==> Contains(s[1..], sep)
  {
    var t := s[1..];
    if Contains(s, sep) {
      var i :| 0 <= i <= |s| && OccursAt(s, sep, i);
      assert s[0..] == s;
      assert t[i - 1..] == s[i..];
      assert OccursAt(t, sep, i - 1);
    }
    if Contains(t, sep) {
      var i :| 0 <= i <= |t| && OccursAt(t, sep, i);
      assert s[i + 1..] == t[i..];
      assert OccursAt(s, sep, i + 1);
    }
  }

  /** There is one field exactly when `sep` does not occur, and it is then
      the whole text. */
  lemma {:induction false} FieldsSingle(s: string, sep: string)
    requires |sep| > 0
    ensures |Fields(s, sep)| == 1 <==> !Contains(s, sep)
    ensures |Fields(s, sep)| == 1 ==> Fields(s, sep)[0] == s
    decreases |s|
  {
    if StartsWith(s, sep) {
      assert OccursAt(s, sep, 0);
    } else if s != [] {
      FieldsSingle(s[1..], sep);
      ContainsTail(s, sep);
      assert s == [s[0]] + s[1..];
    } else {
      assert forall i :: !OccursAt(s, sep, i);
    }
  }

  /** `split(sep)[-1]`. */
  function LastField(s: string, sep: string): string
    requires |sep| > 0
  {
    var f := Fields(s, sep);
    f[|f| - 1]
  }

  /** The last field is the text after the last occurrence of `sep`: a
      suffix of `s` that contains no `sep`, directly preceded by `sep` when
      `sep` occurs at all, and all of `s` when it does not. */
  predicate AfterLast(s: string, sep: string, r: string)
    requires |sep| > 0
  {
    exists j :: 0 <= j <= |s| && r == s[j..]
      && (Contains(s, sep) ==> OccursAt(s, sep, j - |sep|))
      && (!Contains(s, sep) ==> j == 0)
  }

  lemma {:induction false} LastFieldMeaning(s: string, sep: string)
    requires |sep| > 0
    ensures AfterLast(s, sep, LastField(s, sep))
    ensures !Contains(LastField(s, sep), sep)
    decreases |s|
  {
    if !Contains(s, sep) {
      LastFieldWhole(s, sep);
    } else if StartsWith(s, sep) {
      var t := s[|sep|..];
      LastFieldMeaning(t, sep);
      LastFieldSkipSep(s, sep);
      AfterLastSkipSep(s, sep, LastField(t, sep));
    } else {
      var t := s[1..];
      ContainsTail(s, sep);
      LastFieldMeaning(t, sep);
      LastFieldSkipChar(s, sep);
      AfterLastSkipChar(s, sep, LastField(t, sep));
    }
  }

  /** A leading separator opens an empty first field and leaves the last. */
  lemma LastFieldSkipSep(s: string, sep: string)
    requires |sep| > 0 && StartsWith(s, sep)
    ensures LastField(s, sep) == LastField(s[|sep|..], sep)
  {
    var rest := Fields(s[|sep|..], sep);
    assert Fields(s, sep) == [""] + rest;
  }

  /** A leading character that does not start a separator joins the first
      field, which is not the last when the tail holds a separator. */
  lemma LastFieldSkipChar(s: string, sep: string)
    requires |sep| > 0 && s != [] && !StartsWith(s, sep) && Contains(s[1..], sep)
    ensures LastField(s, sep) == LastField(s[1..], sep)
  {
    var rest := Fields(s[1..], sep);
    FieldsSingle(s[1..], sep);
    assert |rest| > 1;
    assert Fields(s, sep) == [[s[0]] + rest[0]] + rest[1..];
  }

  /** Without any separator the last field is the whole text. */
  lemma LastFieldWhole(s: string, sep: string)
    requires |sep| > 0 && !Contains(s, sep)
    ensures AfterLast(s, sep, LastField(s, sep))
    ensures !Contains(LastField(s, sep), sep)
  {
    FieldsSingle(s, sep);
    assert LastField(s, sep) == s;
    assert s == s[0..];
  }

  /** The case of a leading separator. */
  lemma AfterLastSkipSep(s: string, sep: string, r: string)
    requires |sep| > 0 && StartsWith(s, sep)
    requires AfterLast(s[|sep|..], sep, r)
    ensures AfterLast(s, sep, r)
  {
    var t := s[|sep|..];
    var j' :| 0 <= j' <= |t| && r == t[j'..]
      && (Contains(t, sep) ==> OccursAt(t, sep, j' - |sep|))
      && (!Contains(t, sep) ==> j' == 0);
    var j := j' + |sep|;
    assert s[j..] == t[j'..];
    assert s[0..] == s;
    assert OccursAt(s, sep, 0);
    if Contains(t, sep) {
      assert s[j - |sep|..] == t[j' - |sep|..];
    }
    assert OccursAt(s, sep, j - |sep|);
  }

  /** The case of a leading character that does not start a separator, when
      the tail holds a separator. */
  lemma AfterLastSkipChar(s: string, sep: string, r: string)
    requires |sep| > 0 && s != [] && Contains(s[1..], sep)
    requires AfterLast(s[1..], sep, r)
    ensures AfterLast(s, sep, r)
  {
    var t := s[1..];
    var j' :| 0 <= j' <= |t| && r == t[j'..]
      && (Contains(t, sep) ==> OccursAt(t, sep, j' - |sep|))
      && (!Contains(t, sep) ==> j' == 0);
    var i' := j' - |sep|;
    assert OccursAt(t, sep, i');
    var i := i' + 1;
    var j := j' + 1;
    assert s[j..] == t[j'..];
    assert s[i..] == t[i'..];
    assert OccursAt(s, sep, i);
    assert Contains(s, sep) by {
      assert 0 <= i <= |s| && OccursAt(s, sep, i);
    }
    assert 0 <= j <= |s| && r == s[j..] && OccursAt(s, sep, j - |sep|);
  }

  /** The token `get_user_id` passes on. */
  function Token(authorization: string): string {
    LastField(authorization, BEARER)
  }

  /** `get_user_id`: the ValueError for a header without the scheme prefix,
      else the verifier's answer for the extracted token. */
  function GetUserId(authorization: string, verify: string -> Result<string, string>): (r: Result<string, string>)
    ensures !StartsWith(authorization, BEARER) ==> r == Err(NOT_BEARER)
    ensures StartsWith(authorization, BEARER) ==> r == verify(Token(authorization))
  {
    if !StartsWith(authorization, BEARER) then Err(NOT_BEARER)
    else verify(Token(authorization))
  }

  /** The token never contains "Bearer ", and when "Bearer " appears only as
      the prefix it is the header minus its first seven characters. */
  lemma TokenShape(authorization: string)
    requires StartsWith(authorization, BEARER)
    ensures !Contains(Token(authorization), BEARER)
    ensures !Contains(authorization[|BEARER|..], BEARER) ==>
      Token(authorization) == authorization[|BEARER|..]
  {
    LastFieldMeaning(authorization, BEARER);
    var t := authorization[|BEARER|..];
    if !Contains(t, BEARER) {
      FieldsSingle(t, BEARER);
    }
  }

  /** "Bearer " alone yields the empty token. */
  lemma BareScheme()
    ensures Token(BEARER) == ""
  {
    TokenShape(BEARER);
    assert BEARER[|BEARER|..] == "";
    assert forall i :: !OccursAt("", BEARER, i);
  }
}

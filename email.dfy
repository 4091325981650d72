/** The e-mail pattern of `create_user` (src/routes/user.rs:40-43) and the
    password-length rule beside it.

    The pattern is a regular expression anchored at the start only:
        local part   [a-z0-9_+]([a-z0-9_+.]*[a-z0-9_+])?
        '@'
        labels       [a-z0-9]+([-.][a-z0-9]+)*
        '.'
        top level    [a-z]{2,6}
    The predicates below follow that grammar piece by piece; `IsEmail` is a
    direct check over characters, proved to accept exactly the same strings. */
module Email {

  predicate Lower(c: char) { 'a' <= c <= 'z' }

  predicate Alnum(c: char) { Lower(c) || '0' <= c <= '9' }

  /** A character allowed at either end of the local part. */
  predicate LocalEnd(c: char) { Alnum(c) || c == '_' || c == '+' }

  /** A character allowed inside the local part. */
  predicate LocalChar(c: char) { LocalEnd(c) || c == '.' }

  predicate Separator(c: char) { c == '-' || c == '.' }

  /** `[a-z0-9_+]([a-z0-9_+.]*[a-z0-9_+])?` */
  predicate LocalPart(x: string)
  {
    |x| > 0 && LocalEnd(x[0]) && LocalEnd(x[|x| - 1])
    && forall i :: 0 < i < |x| - 1 ==> LocalChar(x[i])
  }

  /** `[a-z0-9]+` */
  predicate Run(x: string)
  {
    |x| > 0 && forall i :: 0 <= i < |x| ==> Alnum(x[i])
  }

  /** `[a-z0-9]+([-.][a-z0-9]+)*`: one run, or labels, a separator and a run. */
  predicate Labels(x: string)
    decreases |x|
  {
    Run(x)
    || exists k :: 0 < k < |x| - 1 && Labels(x[..k]) && Separator(x[k]) && Run(x[k + 1..])
  }

  /** `[a-z]{2,6}` */
  predicate TopLevel(x: string)
  {
    2 <= |x| <= 6 && forall i :: 0 <= i < |x| ==> Lower(x[i])
  }

  /** Labels, '.', top level. */
  predicate Domain(x: string)
  {
    exists i :: 0 < i < |x| && Labels(x[..i]) && x[i] == '.' && TopLevel(x[i + 1..])
  }

  /** Local part, '@', domain: the whole pattern. */
  predicate Address(x: string)
  {
    exists a :: 0 < a < |x| && LocalPart(x[..a]) && x[a] == '@' && Domain(x[a + 1..])
  }

  /** `is_match` of a pattern anchored at the start only: some prefix of the
      input is an address. */
  predicate MatchesPattern(s: string)
  {
    exists k :: 0 <= k <= |s| && Address(s[..k])
  }

  /** Labels seen character by character: alphanumeric at both ends, and
      every separator followed by an alphanumeric. */
  predicate Segmented(x: string)
  {
    |x| > 0 && Alnum(x[0]) && Alnum(x[|x| - 1])
    && (forall i :: 0 <= i < |x| ==> Alnum(x[i]) || Separator(x[i]))
    && (forall i :: 0 <= i < |x| - 1 && Separator(x[i]) ==> Alnum(x[i + 1]))
  }

  /** The position of the first '@', or the length when there is none. */
  function FirstAt(s: string): (a: nat)
    ensures a <= |s|
    ensures a < |s| ==> s[a] == '@'
    ensures forall j :: 0 <= j < a ==> s[j] != '@'
  {
    if |s| == 0 then 0
    else if s[0] == '@' then 0
    else 1 + FirstAt(s[1..])
  }

  /** A domain followed by anything: labels, '.', and two lowercase letters
      are enough, since the rest of the top level may be taken as trailing text. */
  predicate DomainStart(d: string)
  {
    exists i :: 0 < i < |d| - 2 && Segmented(d[..i]) && d[i] == '.' && Lower(d[i + 1]) && Lower(d[i + 2])
  }

  /** The check `create_user` applies to the e-mail. */
  predicate IsEmail(s: string)
  {
    var a := FirstAt(s);
    a < |s| && LocalPart(s[..a]) && DomainStart(s[a + 1..])
  }

  /** Labels and a separator and a run are segmented when the labels are. */
  lemma JoinSegmented(x: string, k: nat)
    requires 0 < k < |x| - 1 && Segmented(x[..k]) && Separator(x[k]) && Run(x[k + 1..])
    ensures Segmented(x)
  {
    assert forall i :: 0 <= i < k ==> x[i] == x[..k][i];
    assert forall i :: k < i < |x| ==> x[i] == x[k + 1..][i - k - 1];
  }

  /** The grammar of labels and the character-wise check agree. */
  lemma {:induction false} LabelsIffSegmented(x: string)
    ensures Labels(x) <==> Segmented(x)
    decreases |x|
  {
    if Labels(x) {
      if !Run(x) {
        var k :| 0 < k < |x| - 1 && Labels(x[..k]) && Separator(x[k]) && Run(x[k + 1..]);
        LabelsIffSegmented(x[..k]);
        JoinSegmented(x, k);
      }
    }
    if Segmented(x) && !Run(x) {
      var k := LastSeparator(x);
      var head := x[..k];
      assert Segmented(head) by {
        assert forall i :: 0 <= i < k ==> head[i] == x[i];
      }
      LabelsIffSegmented(head);
      assert Run(x[k + 1..]) by {
        assert forall i :: k < i < |x| ==> x[i] == x[k + 1..][i - k - 1];
      }
    }
  }

  /** The last separator of a segmented string that is not a single run. */
  lemma LastSeparator(x: string) returns (k: nat)
    requires Segmented(x) && !Run(x)
    ensures 0 < k < |x| - 1 && Separator(x[k])
    ensures forall i :: k < i < |x| ==> Alnum(x[i])
  {
    k := |x| - 1;
    while !Separator(x[k])
      invariant 0 <= k < |x|
      invariant forall i :: k < i < |x| ==> Alnum(x[i])
      decreases k
    {
      if k == 0 {
        assert false;
      }
      k := k - 1;
    }
  }

  /** A local part holds no '@', so the '@' of an address is the first one. */
  lemma AddressAt(s: string, k: nat, a: nat)
    requires k <= |s| && 0 < a < k && LocalPart(s[..k][..a]) && s[..k][a] == '@'
    ensures FirstAt(s) == a
  {
    forall j | 0 <= j < a
      ensures s[j] != '@'
    {
      assert s[j] == s[..k][..a][j];
    }
    assert s[a] == '@';
    FirstAtIs(s, a);
  }

  lemma {:induction false} FirstAtIs(s: string, a: nat)
    requires a < |s| && s[a] == '@' && forall j :: 0 <= j < a ==> s[j] != '@'
    ensures FirstAt(s) == a
  {
    if a > 0 {
      FirstAtIs(s[1..], a - 1);
    }
  }

  /** The check accepts exactly what the pattern matches. */
  lemma MatchesIffIsEmail(s: string)
    ensures MatchesPattern(s) <==> IsEmail(s)
  {
    if MatchesPattern(s) {
      MatchedIsEmail(s);
    }
    if IsEmail(s) {
      EmailMatched(s);
    }
  }

  /** A domain at the front of `d` makes `d` start like a domain. */
  lemma DomainStarts(dx: string, d: string)
    requires Domain(dx) && |dx| <= |d| && dx == d[..|dx|]
    ensures DomainStart(d)
  {
    var i :| 0 < i < |dx| && Labels(dx[..i]) && dx[i] == '.' && TopLevel(dx[i + 1..]);
    LabelsIffSegmented(dx[..i]);
    assert dx[..i] == d[..i];
    assert dx[i + 1..][0] == d[i + 1] && dx[i + 1..][1] == d[i + 2];
  }

  /** The first three characters after the labels are a domain on their own. */
  lemma StartIsDomain(d: string, i: nat)
    requires 0 < i < |d| - 2 && Segmented(d[..i]) && d[i] == '.' && Lower(d[i + 1]) && Lower(d[i + 2])
    ensures Domain(d[..i + 3])
  {
    var dx := d[..i + 3];
    LabelsIffSegmented(d[..i]);
    assert dx[..i] == d[..i];
    assert dx[i + 1..] == [d[i + 1], d[i + 2]];
  }

  /** The parts of an address, with its domain read as a domain start. */
  lemma AddressSplit(x: string) returns (a: nat)
    requires Address(x)
    ensures 0 < a < |x| && LocalPart(x[..a]) && x[a] == '@' && DomainStart(x[a + 1..])
  {
    a :| 0 < a < |x| && LocalPart(x[..a]) && x[a] == '@' && Domain(x[a + 1..]);
    var dx := x[a + 1..];
    assert dx == dx[..|dx|];
    DomainStarts(dx, dx);
  }

  /** Text that starts like a domain still does with more text after it. */
  lemma DomainStartExtends(d: string, e: string)
    requires DomainStart(d) && |d| <= |e| && d == e[..|d|]
    ensures DomainStart(e)
  {
    var i :| 0 < i < |d| - 2 && Segmented(d[..i]) && d[i] == '.' && Lower(d[i + 1]) && Lower(d[i + 2]);
    assert d[..i] == e[..i];
    assert e[i] == d[i] && e[i + 1] == d[i + 1] && e[i + 2] == d[i + 2];
  }

  /** A string with a local part, '@' and a domain start in its first `k`
      characters passes the check. */
  lemma PartsAreEmail(s: string, k: nat, a: nat)
    requires k <= |s| && 0 < a < k
    requires LocalPart(s[..k][..a]) && s[..k][a] == '@' && DomainStart(s[..k][a + 1..])
    ensures IsEmail(s)
  {
    var x := s[..k];
    AddressAt(s, k, a);
    assert s[..a] == x[..a];
    assert x[a + 1..] == s[a + 1..][..k - a - 1];
    DomainStartExtends(x[a + 1..], s[a + 1..]);
  }

  lemma MatchedIsEmail(s: string)
    requires MatchesPattern(s)
    ensures IsEmail(s)
  {
    var k :| 0 <= k <= |s| && Address(s[..k]);
    var a := AddressSplit(s[..k]);
    PartsAreEmail(s, k, a);
  }

  /** A local part, '@' and a domain up to `k` make the prefix an address. */
  lemma AddressOf(s: string, a: nat, k: nat)
    requires a < k <= |s| && LocalPart(s[..a]) && s[a] == '@' && Domain(s[a + 1..k])
    ensures Address(s[..k])
  {
    var x := s[..k];
    assert x[..a] == s[..a];
    assert x[a + 1..] == s[a + 1..k];
  }

  lemma EmailMatched(s: string)
    requires IsEmail(s)
    ensures MatchesPattern(s)
  {
    var a := FirstAt(s);
    var d := s[a + 1..];
    var i :| 0 < i < |d| - 2 && Segmented(d[..i]) && d[i] == '.' && Lower(d[i + 1]) && Lower(d[i + 2]);
    StartIsDomain(d, i);
    var k := a + 1 + i + 3;
    assert d[..i + 3] == s[a + 1..k];
    AddressOf(s, a, k);
  }

  /** Anything may follow a matching address. */
  lemma TrailingTextAccepted(s: string, tail: string)
    requires MatchesPattern(s)
    ensures MatchesPattern(s + tail)
  {
    var k :| 0 <= k <= |s| && Address(s[..k]);
    assert (s + tail)[..k] == s[..k];
  }

  /** The number of bytes of a string in UTF-8, which `String::len` counts. */
  function Utf8Length(s: string): (n: nat)
    ensures |s| <= n <= 4 * |s|
  {
    if |s| == 0 then 0
    else
      var c := s[0] as int;
      (if c < 0x80 then 1 else if c < 0x800 then 2 else if c < 0x1_0000 then 3 else 4) + Utf8Length(s[1..])
  }

  /** Text made of ASCII characters has one byte per character. */
  lemma {:induction false} AsciiLength(s: string)
    requires forall i :: 0 <= i < |s| ==> s[i] as int < 0x80
    ensures Utf8Length(s) == |s|
  {
    if |s| > 0 {
      AsciiLength(s[1..]);
    }
  }

  /** The password rule: at least 8 bytes. */
  predicate PasswordLongEnough(password: string)
  {
    Utf8Length(password) >= 8
  }
}

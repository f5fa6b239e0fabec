/** Normal forms of email addresses, over ASCII text. */
module Email {
  import opened Strings

  const GMAIL := "gmail.com"
  const GOOGLEMAIL := "googlemail.com"
  const OUTLOOK := "outlook.com"
  const ICLOUD := "icloud.com"
  const YAHOO := "yahoo.com"

  datatype Result<+T> = Ok(value: T) | ErrNormilizeEmail

  /** The user and the domain: the first two pieces between "@" signs. */
  function Parse(email: string): Result<(string, string)> {
    var strs := Split(email, "@");
    if |strs| < 2 then ErrNormilizeEmail else Ok((strs[0], strs[1]))
  }

  /** Drops what follows the first `mark`, unless the text begins with it. */
  function Cut(user: string, mark: string): string {
    var id := Index(user, mark);
    if id > 0 then user[..id] else user
  }

  function NormilizeUser(user: string, domain: string): string {
    if domain == GMAIL then Cut(ReplaceAll(user, ".", ""), "+")
    else if domain == OUTLOOK || domain == ICLOUD then Cut(user, "+")
    else if domain == YAHOO then Cut(user, "-")
    else user
  }

  function Normilize(email: string): Result<string> {
    match Parse(ToLower(email))
    case ErrNormilizeEmail => ErrNormilizeEmail
    case Ok((user, domain)) =>
      var dom := ReplaceAll(domain, GOOGLEMAIL, GMAIL);
      Ok(NormilizeUser(user, dom) + "@" + dom)
  }

  // ---- The normal form, described without the code ----

  predicate Lower(s: string) { forall c :: c in s ==> !('A' <= c <= 'Z') }

  /** No `mark` except possibly at the front, and then anything may follow. */
  predicate NotCuttable(user: string, mark: char) {
    mark in user ==> user[0] == mark
  }

  ghost predicate NormalParts(user: string, domain: string) {
    && Lower(user) && Lower(domain) && '@' !in user && '@' !in domain
    && (forall j :: !HasAt(domain, GOOGLEMAIL, j))
    && (domain == GMAIL ==> '.' !in user)
    && (domain in {GMAIL, OUTLOOK, ICLOUD} ==> NotCuttable(user, '+'))
    && (domain == YAHOO ==> NotCuttable(user, '-'))
  }

  ghost predicate IsNormal(email: string) {
    exists user, domain :: NormalParts(user, domain) && email == user + "@" + domain
  }

  // ---- The pieces ----

  lemma LowerIsStable(s: string)
    ensures Lower(ToLower(s))
    ensures Lower(s) ==> ToLower(s) == s
  {
    forall i | 0 <= i < |s| ensures !('A' <= ToLower(s)[i] <= 'Z') {}
    if Lower(s) {
      forall i | 0 <= i < |s| ensures ToLower(s)[i] == s[i] { assert s[i] in s; }
    }
  }

  /** The pieces of a split contain no separator character and nothing the text does not. */
  lemma {:induction false} SplitPieces(s: string, i: nat)
    requires i < |Split(s, "@")|
    ensures '@' !in Split(s, "@")[i]
    ensures forall c :: c in Split(s, "@")[i] ==> c in s
    decreases |s|
  {
    var k := Index(s, "@");
    IndexOfChar(s, '@');
    if k >= 0 && i > 0 {
      SplitPieces(s[k + 1..], i - 1);
    }
  }

  lemma CutIsStable(user: string, mark: char)
    ensures NotCuttable(Cut(user, [mark]), mark)
    ensures NotCuttable(user, mark) ==> Cut(user, [mark]) == user
    ensures forall c :: c in Cut(user, [mark]) ==> c in user
  {
    IndexOfChar(user, mark);
  }

  lemma {:induction false} DotsRemoved(user: string)
    ensures '.' !in ReplaceAll(user, ".", "")
    ensures '.' !in user ==> ReplaceAll(user, ".", "") == user
    ensures forall c :: c in ReplaceAll(user, ".", "") ==> c in user
  {
    if user != "" {
      DotsRemoved(user[1..]);
      assert user[..1] == [user[0]];
      assert user == [user[0]] + user[1..];
    }
  }

  /** Text that begins with "gmail.com" does not begin with a proper suffix of
      "googlemail.com": only the one from its second "g" agrees in the first letter, and
      that one goes on with "l". */
  lemma GmailIsNoSuffix(text: string, j: nat)
    requires 1 <= j < |GOOGLEMAIL| && GMAIL <= text
    ensures !(GOOGLEMAIL[j..] <= text)
  {
    assert text[0] == GMAIL[0] && text[1] == GMAIL[1];
  }

  /** No proper suffix of "googlemail.com" can be completed by the beginning of "gmail.com",
      so a suffix that begins the replaced text already began the text itself. */
  lemma {:induction false} SuffixNotCreated(s: string, j: nat)
    requires 1 <= j <= |GOOGLEMAIL|
    requires GOOGLEMAIL[j..] <= ReplaceAll(s, GOOGLEMAIL, GMAIL)
    ensures GOOGLEMAIL[j..] <= s
    decreases |GOOGLEMAIL| - j
  {
    var out := ReplaceAll(s, GOOGLEMAIL, GMAIL);
    if j < |GOOGLEMAIL| {
      assert out[0] == GOOGLEMAIL[j];
      if |GOOGLEMAIL| <= |s| && s[..|GOOGLEMAIL|] == GOOGLEMAIL {
        GmailIsNoSuffix(out, j);
      } else {
        assert out[1..] == ReplaceAll(s[1..], GOOGLEMAIL, GMAIL);
        assert GOOGLEMAIL[j..][1..] == GOOGLEMAIL[j + 1..];
        SuffixNotCreated(s[1..], j + 1);
        assert s == [s[0]] + s[1..];
      }
    }
  }

  /** Replacing never creates a new "googlemail.com". */
  lemma {:induction false} NothingToReplace(s: string, j: nat)
    ensures !HasAt(ReplaceAll(s, GOOGLEMAIL, GMAIL), GOOGLEMAIL, j)
    decreases |s|, j
  {
    var out := ReplaceAll(s, GOOGLEMAIL, GMAIL);
    if HasAt(out, GOOGLEMAIL, j) {
      if |GOOGLEMAIL| <= |s| && s[..|GOOGLEMAIL|] == GOOGLEMAIL {
        var rest := s[|GOOGLEMAIL|..];
        assert out == GMAIL + ReplaceAll(rest, GOOGLEMAIL, GMAIL);
        if j < |GMAIL| {
          InsideReplacement(ReplaceAll(rest, GOOGLEMAIL, GMAIL), j);
        } else {
          assert out[j..j + |GOOGLEMAIL|] == out[|GMAIL|..][j - |GMAIL|..j - |GMAIL| + |GOOGLEMAIL|];
          NothingToReplace(rest, j - |GMAIL|);
        }
      } else if j > 0 {
        assert out[j..j + |GOOGLEMAIL|] == out[1..][j - 1..j - 1 + |GOOGLEMAIL|];
        NothingToReplace(s[1..], j - 1);
      } else {
        assert out[1..] == ReplaceAll(s[1..], GOOGLEMAIL, GMAIL);
        assert GOOGLEMAIL[1..] <= out[1..] by { assert out[..|GOOGLEMAIL|] == GOOGLEMAIL; }
        SuffixNotCreated(s[1..], 1);
      }
    }
  }

  /** "googlemail.com" does not occur across the end of a "gmail.com". */
  lemma InsideReplacement(rest: string, j: nat)
    requires j < |GMAIL|
    ensures !HasAt(GMAIL + rest, GOOGLEMAIL, j)
  {
    var out := GMAIL + rest;
    assert forall k :: 0 <= k < |GMAIL| ==> out[k] == GMAIL[k];
    if HasAt(out, GOOGLEMAIL, j) {
      OccursAtChar(out, GOOGLEMAIL, j, 0);
      OccursAtChar(out, GOOGLEMAIL, j, 1);
    }
  }

  lemma {:induction false} NoOccurrenceNoChange(s: string)
    requires forall j :: !HasAt(s, GOOGLEMAIL, j)
    ensures ReplaceAll(s, GOOGLEMAIL, GMAIL) == s
  {
    assert !HasAt(s, GOOGLEMAIL, 0);
    if s != "" {
      forall j ensures !HasAt(s[1..], GOOGLEMAIL, j) {
        if HasAt(s[1..], GOOGLEMAIL, j) {
          assert s[1..][j..j + |GOOGLEMAIL|] == s[j + 1..j + 1 + |GOOGLEMAIL|];
          assert HasAt(s, GOOGLEMAIL, j + 1);
        }
      }
      NoOccurrenceNoChange(s[1..]);
    }
  }

  lemma {:induction false} ReplaceKeepsChars(s: string)
    ensures forall c :: c in ReplaceAll(s, GOOGLEMAIL, GMAIL) ==> c in s || c in GMAIL
    decreases |s|
  {
    if |GOOGLEMAIL| <= |s| && s[..|GOOGLEMAIL|] == GOOGLEMAIL {
      ReplaceKeepsChars(s[|GOOGLEMAIL|..]);
      assert ReplaceAll(s, GOOGLEMAIL, GMAIL) == GMAIL + ReplaceAll(s[|GOOGLEMAIL|..], GOOGLEMAIL, GMAIL);
    } else if s != "" {
      ReplaceKeepsChars(s[1..]);
      assert ReplaceAll(s, GOOGLEMAIL, GMAIL) == [s[0]] + ReplaceAll(s[1..], GOOGLEMAIL, GMAIL);
    }
  }

  // ---- The theorems ----

  lemma NormilizeUserIsNormal(user: string, domain: string)
    requires Lower(user) && '@' !in user && Lower(domain) && '@' !in domain
    requires forall j :: !HasAt(domain, GOOGLEMAIL, j)
    ensures NormalParts(NormilizeUser(user, domain), domain)
  {
    DotsRemoved(user);
    CutIsStable(ReplaceAll(user, ".", ""), '+');
    CutIsStable(user, '+');
    CutIsStable(user, '-');
  }

  /** Every result is in normal form. */
  lemma ResultIsNormal(email: string)
    requires Normilize(email).Ok?
    ensures IsNormal(Normilize(email).value)
  {
    var strs := Split(ToLower(email), "@");
    LowerIsStable(email);
    SplitPieces(ToLower(email), 0);
    SplitPieces(ToLower(email), 1);
    var dom := ReplaceAll(strs[1], GOOGLEMAIL, GMAIL);
    ReplaceKeepsChars(strs[1]);
    forall j ensures !HasAt(dom, GOOGLEMAIL, j) {
      if j >= 0 { NothingToReplace(strs[1], j); }
    }
    NormilizeUserIsNormal(strs[0], dom);
  }

  /** An address in normal form is left alone. */
  lemma NormalIsFixed(email: string)
    requires IsNormal(email)
    ensures Normilize(email) == Ok(email)
  {
    var user, domain :| NormalParts(user, domain) && email == user + "@" + domain;
    LowerIsStable(email);
    NormilizeParsed(email, user, domain);
    NoOccurrenceNoChange(domain);
    DotsRemoved(user);
    CutIsStable(user, '+');
    CutIsStable(user, '-');
  }

  /** The fixed points of `Normilize` are exactly the addresses in normal form. */
  lemma FixedIffNormal(email: string)
    ensures Normilize(email) == Ok(email) <==> IsNormal(email)
  {
    if IsNormal(email) { NormalIsFixed(email); }
    if Normilize(email) == Ok(email) { ResultIsNormal(email); }
  }

  /** Normalising twice is normalising once. */
  lemma Idempotent(email: string)
    requires Normilize(email).Ok?
    ensures Normilize(Normilize(email).value) == Normilize(email)
  {
    ResultIsNormal(email);
    NormalIsFixed(Normilize(email).value);
  }

  /** An address is accepted exactly when it contains an "@". */
  lemma AcceptedIff(email: string)
    ensures Normilize(email).Ok? <==> '@' in email
  {
    var s := ToLower(email);
    IndexOfChar(s, '@');
    PiecesOfOne(s, "@");
    if '@' in email {
      var k :| 0 <= k < |email| && email[k] == '@';
      assert s[k] == '@';
    }
  }

  /** What is left of a user and a sub-address at Google, both in lower case: the user
      without dots, unless that leaves nothing. */
  function Account(user: string, tail: string): string {
    var bare := ReplaceAll(user, ".", "");
    if bare != "" then bare else ReplaceAll(tail, ".", "")
  }

  /** Google's two domains in any case, dots in the user, and a sub-address, if any, make no
      difference. */
  lemma GmailAliases(user: string, tail: string, domain: string)
    requires '@' !in user && '@' !in tail && '+' !in user && (tail == "" || tail[0] == '+')
    requires ToLower(domain) == GMAIL || ToLower(domain) == GOOGLEMAIL
    ensures Normilize(user + tail + "@" + domain) == Ok(Account(ToLower(user), ToLower(tail)) + "@" + GMAIL)
  {
    var low, lowTail, dom := ToLower(user), ToLower(tail), ToLower(domain);
    LowerParts(user, tail, domain);
    assert '@' !in low + lowTail && '+' !in low by { StaysOut(user); StaysOut(tail); }
    NormilizeParsed(user + tail + "@" + domain, low + lowTail, dom);
    GmailParts(low, lowTail, dom);
  }

  lemma GmailParts(user: string, tail: string, domain: string)
    requires '+' !in user && (tail == "" || tail[0] == '+') && (domain == GMAIL || domain == GOOGLEMAIL)
    ensures ReplaceAll(domain, GOOGLEMAIL, GMAIL) == GMAIL
    ensures NormilizeUser(user + tail, GMAIL) == Account(user, tail)
  {
    GoogleDomains();
    GmailUser(user, tail);
  }

  // ---- The other providers ----

  /** The character that begins a sub-address at a provider. */
  predicate MarkAt(domain: string, mark: char) {
    ((domain == OUTLOOK || domain == ICLOUD) && mark == '+') || (domain == YAHOO && mark == '-')
  }

  /** What is left is the user without its sub-address, and the domain, in lower case; a text
      that begins with the mark is kept whole. */
  lemma SubAddressDropped(user: string, tail: string, domain: string, mark: char)
    requires '@' !in user && '@' !in tail && mark !in user && (tail == "" || tail[0] == mark)
    requires MarkAt(ToLower(domain), mark)
    ensures Normilize(user + tail + "@" + domain)
         == Ok((if user != "" then ToLower(user) else ToLower(tail)) + "@" + ToLower(domain))
  {
    var low, lowTail, dom := ToLower(user), ToLower(tail), ToLower(domain);
    StaysOut(user);
    StaysOut(tail);
    SubAddressParts(low, lowTail, dom, mark);
    NoAtAt(dom, mark);
    LowerParts(user, tail, domain);
    NormilizeParsed(user + tail + "@" + domain, low + lowTail, dom);
    assert low != "" <==> user != "" by { assert |low| == |user|; }
  }

  lemma SubAddressParts(user: string, tail: string, domain: string, mark: char)
    requires mark !in user && (tail == "" || tail[0] == mark) && MarkAt(domain, mark)
    ensures ReplaceAll(domain, GOOGLEMAIL, GMAIL) == domain
    ensures NormilizeUser(user + tail, domain) == if user != "" then user else tail
  {
    assert |domain| < |GOOGLEMAIL|;
    NoOccurrenceNoChange(domain);
    CutsAtMark(user + tail, domain, mark);
    CutAtMark(user, tail, mark);
  }

  lemma NoAtAt(domain: string, mark: char)
    requires MarkAt(domain, mark)
    ensures '@' !in domain
  {
    if domain == OUTLOOK {
      assert '@' !in OUTLOOK;
    } else if domain == ICLOUD {
      assert '@' !in ICLOUD;
    } else {
      assert '@' !in YAHOO;
    }
  }

  lemma CutsAtMark(user: string, domain: string, mark: char)
    requires MarkAt(domain, mark)
    ensures NormilizeUser(user, domain) == Cut(user, [mark])
  {
    assert domain != GMAIL by { assert OUTLOOK[0] != GMAIL[0] && ICLOUD[0] != GMAIL[0] && YAHOO[0] != GMAIL[0]; }
    assert YAHOO != OUTLOOK && YAHOO != ICLOUD by { assert YAHOO[0] != OUTLOOK[0] && YAHOO[0] != ICLOUD[0]; }
  }

  /** Two such addresses agree exactly when users and domains do, in lower case. */
  lemma SameSubAddressedIff(user: string, tail: string, domain: string, mark: char,
                            user': string, tail': string, domain': string, mark': char)
    requires '@' !in user && '@' !in tail && mark !in user && (tail == "" || tail[0] == mark)
    requires '@' !in user' && '@' !in tail' && mark' !in user' && (tail' == "" || tail'[0] == mark')
    requires MarkAt(ToLower(domain), mark) && MarkAt(ToLower(domain'), mark') && user != "" && user' != ""
    ensures Normilize(user + tail + "@" + domain) == Normilize(user' + tail' + "@" + domain') <==>
      ToLower(user) == ToLower(user') && ToLower(domain) == ToLower(domain')
  {
    SubAddressDropped(user, tail, domain, mark);
    SubAddressDropped(user', tail', domain', mark');
    StaysOut(user);
    StaysOut(user');
    SameAddress(ToLower(user), ToLower(domain), ToLower(user'), ToLower(domain'));
  }

  lemma SameAddress(user: string, domain: string, user': string, domain': string)
    requires '@' !in user && '@' !in user'
    ensures user + "@" + domain == user' + "@" + domain' <==> user == user' && domain == domain'
  {
    var a, b := user + "@" + domain, user' + "@" + domain';
    FirstAt(user, domain);
    FirstAt(user', domain');
    assert a[..|user|] == user && b[..|user'|] == user';
    assert a[|user| + 1..] == domain && b[|user'| + 1..] == domain';
  }

  lemma FirstAt(user: string, domain: string)
    requires '@' !in user
    ensures Index(user + "@" + domain, "@") == |user|
  {
    var a := user + "@" + domain;
    assert HasAt(a, "@", |user|);
    IndexIsFirst(a, "@", |user|);
    IndexOfChar(a, '@');
    assert forall i :: 0 <= i < |user| ==> a[i] == user[i];
  }

  /** At any other provider nothing but the case changes, and Google's old name in the domain. */
  lemma OtherProviders(user: string, domain: string)
    requires '@' !in user && '@' !in domain
    requires ReplaceAll(ToLower(domain), GOOGLEMAIL, GMAIL) !in {GMAIL, OUTLOOK, ICLOUD, YAHOO}
    ensures Normilize(user + "@" + domain)
         == Ok(ToLower(user) + "@" + ReplaceAll(ToLower(domain), GOOGLEMAIL, GMAIL))
  {
    LowerParts(user, "", domain);
    assert user + "" == user && ToLower(user) + ToLower("") == ToLower(user);
    StaysOut(user);
    StaysOut(domain);
    NormilizeParsed(user + "@" + domain, ToLower(user), ToLower(domain));
  }

  /** What follows a second "@" is ignored. */
  lemma SecondAtIgnored(user: string, domain: string, rest: string)
    requires '@' !in user && '@' !in domain
    ensures Normilize(user + "@" + domain + "@" + rest) == Normilize(user + "@" + domain)
  {
    var u, d, r := ToLower(user), ToLower(domain), ToLower(rest);
    assert ToLower(user + "@" + domain + "@" + rest) == u + "@" + d + "@" + r;
    assert ToLower(user + "@" + domain) == u + "@" + d;
    StaysOut(user);
    StaysOut(domain);
    SplitAddress(u, d);
    SplitMore(u, d, r);
  }

  lemma SplitMore(user: string, domain: string, rest: string)
    requires '@' !in user && '@' !in domain
    ensures Parse(user + "@" + domain + "@" + rest) == Ok((user, domain))
  {
    IndexOfChar(user, '@');
    IndexOfChar(domain, '@');
    assert user + "@" + domain + "@" + rest == user + "@" + (domain + "@" + rest);
    SplitConcat(user, "@", domain + "@" + rest);
    SplitConcat(domain, "@", rest);
    PiecesOfOne(user, "@");
    PiecesOfOne(domain, "@");
  }

  lemma LowerParts(user: string, tail: string, domain: string)
    ensures ToLower(user + tail + "@" + domain) == ToLower(user) + ToLower(tail) + "@" + ToLower(domain)
  {
  }

  /** Two such addresses are the same mailbox exactly when their users agree without dots. */
  lemma SameMailboxIff(user: string, tail: string, domain: string, user': string, tail': string, domain': string)
    requires '@' !in user && '@' !in tail && '+' !in user && (tail == "" || tail[0] == '+')
    requires '@' !in user' && '@' !in tail' && '+' !in user' && (tail' == "" || tail'[0] == '+')
    requires ToLower(domain) == GMAIL || ToLower(domain) == GOOGLEMAIL
    requires ToLower(domain') == GMAIL || ToLower(domain') == GOOGLEMAIL
    requires ReplaceAll(ToLower(user), ".", "") != "" && ReplaceAll(ToLower(user'), ".", "") != ""
    ensures Normilize(user + tail + "@" + domain) == Normilize(user' + tail' + "@" + domain') <==>
      ReplaceAll(ToLower(user), ".", "") == ReplaceAll(ToLower(user'), ".", "")
  {
    var a, b := ReplaceAll(ToLower(user), ".", ""), ReplaceAll(ToLower(user'), ".", "");
    GmailAliases(user, tail, domain);
    GmailAliases(user', tail', domain');
    SameUser(a, b, GMAIL);
  }

  lemma SameUser(a: string, b: string, domain: string)
    ensures a + "@" + domain == b + "@" + domain <==> a == b
  {
    if a + "@" + domain == b + "@" + domain {
      assert (a + "@" + domain)[..|a|] == a && (b + "@" + domain)[..|b|] == b;
    }
  }

  /** Lower case brings in neither an "@" nor a mark. */
  lemma StaysOut(s: string)
    ensures '@' !in s ==> '@' !in ToLower(s)
    ensures '+' !in s ==> '+' !in ToLower(s)
    ensures '-' !in s ==> '-' !in ToLower(s)
  {
  }

  lemma GoogleDomains()
    ensures ReplaceAll(GOOGLEMAIL, GOOGLEMAIL, GMAIL) == GMAIL
    ensures ReplaceAll(GMAIL, GOOGLEMAIL, GMAIL) == GMAIL
  {
    assert GOOGLEMAIL[|GOOGLEMAIL|..] == "";
    NoOccurrenceNoChange(GMAIL);
  }

  lemma NormilizeParsed(email: string, user: string, domain: string)
    requires ToLower(email) == user + "@" + domain && '@' !in user && '@' !in domain
    ensures var dom := ReplaceAll(domain, GOOGLEMAIL, GMAIL);
      Normilize(email) == Ok(NormilizeUser(user, dom) + "@" + dom)
  {
    SplitAddress(user, domain);
  }

  lemma SplitAddress(user: string, domain: string)
    requires '@' !in user && '@' !in domain
    ensures Parse(user + "@" + domain) == Ok((user, domain))
  {
    IndexOfChar(user, '@');
    IndexOfChar(domain, '@');
    SplitConcat(user, "@", domain);
    PiecesOfOne(user, "@");
    PiecesOfOne(domain, "@");
  }

  lemma GmailUser(user: string, tail: string)
    requires '+' !in user && (tail == "" || tail[0] == '+')
    ensures NormilizeUser(user + tail, GMAIL) == Account(user, tail)
  {
    DotsDistribute(user, tail);
    DotsRemoved(user);
    var bare, rest := ReplaceAll(user, ".", ""), ReplaceAll(tail, ".", "");
    assert tail != "" ==> tail[..1] == "+" && rest == "+" + ReplaceAll(tail[1..], ".", "");
    CutAtMark(bare, rest, '+');
  }

  lemma CutAtMark(bare: string, tail: string, mark: char)
    requires mark !in bare && (tail == "" || tail[0] == mark)
    ensures Cut(bare + tail, [mark]) == if bare != "" then bare else tail
  {
    IndexOfChar(bare + tail, mark);
    if tail == "" {
      assert bare + tail == bare;
    } else {
      assert HasAt(bare + tail, [mark], |bare|);
      IndexIsFirst(bare + tail, [mark], |bare|);
    }
  }

  lemma {:induction false} DotsDistribute(a: string, b: string)
    ensures ReplaceAll(a + b, ".", "") == ReplaceAll(a, ".", "") + ReplaceAll(b, ".", "")
  {
    if a == "" {
      assert a + b == b;
    } else {
      assert (a + b)[1..] == a[1..] + b;
      assert (a + b)[..1] == a[..1];
      DotsDistribute(a[1..], b);
    }
  }
}

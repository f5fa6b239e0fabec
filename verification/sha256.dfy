/** The text form of a salted password hash and its parser. Texts are byte strings, and the
    hex digest of SHA-256 is a parameter. */
module Sha256 {

  const CRYPT_ALG := "sha256"

  datatype Hashed = Hashed(hash: string, salt: string)

  /** Slicing beyond the end of the input is a runtime panic. */
  datatype Parsed = Ok(p: Hashed) | ErrBadAlgorithm | Panic

  datatype Verdict = Match | ErrMismatched | ErrAlgorithm | Panicked

  /** algorithm$salt$iterations$hash */
  function Print(p: Hashed): string { CRYPT_ALG + "$" + p.salt + "$1$" + p.hash }

  /** Hash: the printed form, appended piece by piece, which parses back to its fields. */
  method HashText(p: Hashed) returns (arr: string)
    ensures arr == Print(p) && Parse(arr, |p.salt|) == Ok(p)
  {
    ParsePrint(p);
    arr := [];
    arr := arr + CRYPT_ALG;
    arr := arr + ['$'];
    arr := arr + p.salt;
    arr := arr + "$1$";
    arr := arr + p.hash;
  }

  /** The digest of the password followed by the salt. */
  function Digest(hex: string -> string, password: string, salt: string): string { hex(password + salt) }

  function Generate(hex: string -> string, password: string, salt: string): string {
    Print(Hashed(Digest(hex, password, salt), salt))
  }

  /** Where the fields lie: only their positions count, the separators are skipped unread. */
  function Parse(text: string, saltSize: nat): Parsed {
    if |text| < |CRYPT_ALG| then Panic
    else if text[..|CRYPT_ALG|] != CRYPT_ALG then ErrBadAlgorithm
    else if |text| < saltSize + 10 then Panic
    else Ok(Hashed(text[saltSize + 10..], text[7..saltSize + 7]))
  }

  /** newFromHash: the position moves from field to field. */
  method NewFromHash(text: string, saltSize: nat) returns (r: Parsed)
    ensures r == Parse(text, saltSize)
  {
    var n := |CRYPT_ALG|;
    if |text| < n {
      return Panic;
    }
    if text[..n] != CRYPT_ALG {
      return ErrBadAlgorithm;
    }
    n := n + 1;
    if |text| < n + saltSize {
      return Panic;
    }
    var salt := text[n..n + saltSize];
    n := n + saltSize;
    n := n + 3;
    if |text| < n {
      return Panic;
    }
    r := Ok(Hashed(text[n..], salt));
  }

  /** CompareHashAndPassword compares the two printed forms. */
  function Compare(hex: string -> string, text: string, password: string, saltSize: nat): Verdict {
    match Parse(text, saltSize)
    case Panic => Panicked
    case ErrBadAlgorithm => ErrAlgorithm
    case Ok(p) =>
      if Print(p) == Print(Hashed(Digest(hex, password, p.salt), p.salt)) then Match else ErrMismatched
  }

  /** Parsing a printed hash with its salt size gives back salt and hash. */
  lemma ParsePrint(p: Hashed)
    ensures Parse(Print(p), |p.salt|) == Ok(p)
  {
    var text := Print(p);
    assert text[..6] == CRYPT_ALG;
    assert text[7..|p.salt| + 7] == p.salt;
    assert text[|p.salt| + 10..] == p.hash;
  }

  /** Printing what was parsed gives the text back exactly when its separators are the ones
      the printer writes. */
  lemma PrintParseIff(text: string, saltSize: nat)
    requires Parse(text, saltSize).Ok?
    ensures Print(Parse(text, saltSize).p) == text <==>
      text[6] == '$' && text[saltSize + 7..saltSize + 10] == "$1$"
  {
    var p := Parse(text, saltSize).p;
    var out := Print(p);
    assert out[6] == '$' && out[saltSize + 7..saltSize + 10] == "$1$";
    assert text == text[..6] + [text[6]] + text[7..saltSize + 7]
                 + text[saltSize + 7..saltSize + 10] + text[saltSize + 10..];
  }

  lemma PrintInjective(p: Hashed, q: Hashed)
    requires p.salt == q.salt && Print(p) == Print(q)
    ensures p == q
  {
    ParsePrint(p);
    ParsePrint(q);
  }

  /** A password is accepted exactly for the texts that are long enough, begin with the
      algorithm and carry the digest of the password and the salt they carry. */
  lemma AcceptedIff(hex: string -> string, text: string, password: string, saltSize: nat)
    ensures Compare(hex, text, password, saltSize) == Match <==>
      && |text| >= saltSize + 10
      && text[..6] == CRYPT_ALG
      && text[saltSize + 10..] == hex(password + text[7..saltSize + 7])
  {
    if Parse(text, saltSize).Ok? {
      var p := Parse(text, saltSize).p;
      var q := Hashed(Digest(hex, password, p.salt), p.salt);
      if Print(p) == Print(q) { PrintInjective(p, q); }
    }
  }

  /** A generated hash carries its salt and the digest of password and salt, and is accepted for
      its password, for every salt. */
  lemma GeneratedIsAccepted(hex: string -> string, password: string, salt: string)
    ensures Parse(Generate(hex, password, salt), |salt|) == Ok(Hashed(hex(password + salt), salt))
    ensures Compare(hex, Generate(hex, password, salt), password, |salt|) == Match
  {
    ParsePrint(Hashed(Digest(hex, password, salt), salt));
  }
}

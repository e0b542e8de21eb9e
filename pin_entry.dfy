/**
 * The team code login (components/PINEntry.tsx): the input is capped at 15
 * characters, a code is accepted when it has at least three characters once
 * surrounding white space is trimmed, and the trimmed code, upper-cased, is
 * what the app logs in with. Upper-casing is a parameter `upper`.
 */
module PinEntry {
  import opened Wrappers

  /** The input's `maxLength`. */
  const MaxLength := 15

  /** The shortest code accepted. */
  const MinLength := 3

  /** The single white-space and line-terminator characters `String.prototype.trim` removes. */
  const SpaceChars: set<char> :=
    {'\t', '\n', '\U{B}', '\U{C}', '\r', ' ', '\U{A0}', '\U{1680}',
     '\U{2028}', '\U{2029}', '\U{202F}', '\U{205F}', '\U{3000}', '\U{FEFF}'}

  /** The characters `String.prototype.trim` removes: the ones above and the range U+2000 to U+200A. */
  predicate IsSpace(c: char) {
    c in SpaceChars || '\U{2000}' <= c <= '\U{200A}'
  }

  /** `s` with its leading white space removed. */
  function TrimStart(s: string): (r: string)
    ensures |r| <= |s| && r == s[|s| - |r|..]
  {
    if s != [] && IsSpace(s[0]) then TrimStart(s[1..]) else s
  }

  /** Only white space is removed from the front, and the text left starts with something else. */
  lemma {:induction false} TrimStartRemovesSpace(s: string)
    ensures TrimStart(s) == [] || !IsSpace(TrimStart(s)[0])
    ensures forall i | 0 <= i < |s| - |TrimStart(s)| :: IsSpace(s[i])
  {
    if s != [] && IsSpace(s[0]) {
      TrimStartRemovesSpace(s[1..]);
      forall i | 1 <= i < |s| - |TrimStart(s)| ensures IsSpace(s[i]) {
        assert s[i] == s[1..][i - 1];
      }
    }
  }

  /** `s` with its trailing white space removed. */
  function TrimEnd(s: string): (r: string)
    ensures |r| <= |s| && r == s[..|r|]
  {
    if s != [] && IsSpace(s[|s| - 1]) then TrimEnd(s[..|s| - 1]) else s
  }

  /** Only white space is removed from the back, and the text left ends with something else. */
  lemma {:induction false} TrimEndRemovesSpace(s: string)
    ensures TrimEnd(s) == [] || !IsSpace(TrimEnd(s)[|TrimEnd(s)| - 1])
    ensures forall i | |TrimEnd(s)| <= i < |s| :: IsSpace(s[i])
  {
    if s != [] && IsSpace(s[|s| - 1]) {
      TrimEndRemovesSpace(s[..|s| - 1]);
      forall i | |TrimEnd(s)| <= i < |s| - 1 ensures IsSpace(s[i]) {
        assert s[i] == s[..|s| - 1][i];
      }
    }
  }

  /** `s.trim()` */
  function Trim(s: string): string {
    TrimEnd(TrimStart(s))
  }

  /** The trimmed text is the part of `s` that follows its leading white space. */
  lemma TrimKeepsInfix(s: string)
    ensures |s| - |TrimStart(s)| + |Trim(s)| <= |s|
    ensures Trim(s) == s[|s| - |TrimStart(s)|..|s| - |TrimStart(s)| + |Trim(s)|]
  {
    KeptSlice(s, TrimStart(s), Trim(s));
  }

  /** Everything in `s` after the trimmed text is white space. */
  lemma TrimDropsTrailingSpace(s: string)
    ensures forall i | |s| - |TrimStart(s)| + |Trim(s)| <= i < |s| :: IsSpace(s[i])
  {
    var t := TrimStart(s);
    TrimEndRemovesSpace(t);
    TrailingSpace(s, t, TrimEnd(t));
  }

  /** The trimmed text neither starts nor ends with white space. */
  lemma TrimEdges(s: string)
    ensures Trim(s) == [] || (!IsSpace(Trim(s)[0]) && !IsSpace(Trim(s)[|Trim(s)| - 1]))
  {
    var t := TrimStart(s);
    var r := TrimEnd(t);
    TrimStartRemovesSpace(s);
    TrimEndRemovesSpace(t);
    if r != [] {
      assert r[0] == t[0];
    }
  }

  /** A prefix of a suffix is an infix. */
  lemma KeptSlice(s: string, t: string, r: string)
    requires |t| <= |s| && t == s[|s| - |t|..]
    requires |r| <= |t| && r == t[..|r|]
    ensures r == s[|s| - |t|..|s| - |t| + |r|]
  {
  }

  /** White space after the kept part of a suffix is white space of the whole text. */
  lemma TrailingSpace(s: string, t: string, r: string)
    requires |t| <= |s| && t == s[|s| - |t|..]
    requires |r| <= |t| && r == t[..|r|]
    requires forall i | |r| <= i < |t| :: IsSpace(t[i])
    ensures forall i | |s| - |t| + |r| <= i < |s| :: IsSpace(s[i])
  {
    var k := |s| - |t|;
    forall i | k + |r| <= i < |s| ensures IsSpace(s[i]) {
      assert s[i] == t[i - k];
    }
  }

  /** Trimming twice trims no more than trimming once. */
  lemma TrimIdempotent(s: string)
    ensures Trim(Trim(s)) == Trim(s)
  {
    TrimEdges(s);
    var r := Trim(s);
    assert TrimStart(r) == r;
    assert TrimEnd(r) == r;
  }

  /** `pin.trim().length >= 3` */
  predicate Accepts(pin: string) {
    |Trim(pin)| >= MinLength
  }

  /** What `onLogin` receives: `pin.trim().toUpperCase()`. */
  function LoginCode(pin: string, upper: string -> string): string {
    upper(Trim(pin))
  }

  class Form {
    var pin: string
    var error: bool

    /** The field never holds more than `maxLength` characters. */
    predicate Valid()
      reads this
    {
      |pin| <= MaxLength
    }

    constructor()
      ensures Valid() && pin == "" && !error
    {
      pin := "";
      error := false;
    }

    /** Typing or pasting: the field keeps the first 15 characters. */
    method SetPin(typed: string)
      modifies this
      ensures Valid()
      ensures pin == if |typed| <= MaxLength then typed else typed[..MaxLength]
      ensures error == old(error)
    {
      pin := if |typed| <= MaxLength then typed else typed[..MaxLength];
    }

    /**
     * `handleSubmit`: an accepted code logs in with the trimmed, upper-cased
     * text, which had 3 to 15 characters; a rejected one logs nobody in and
     * raises the error flag.
     */
    method HandleSubmit(upper: string -> string) returns (login: Option<string>)
      requires Valid()
      modifies this
      ensures Valid() && pin == old(pin)
      ensures login.Some? <==> Accepts(pin)
      ensures login.Some? ==> login.value == LoginCode(pin, upper) && MinLength <= |Trim(pin)| <= MaxLength
      ensures login.Some? ==> error == old(error)
      ensures login.None? ==> error
    {
      var code := Trim(pin);
      if |code| >= MinLength {
        login := Some(upper(code));
      } else {
        error := true;
        login := None;
      }
    }

    /** The timer two seconds after a rejection clears the error flag. */
    method ClearError()
      modifies this
      ensures !error && pin == old(pin)
    {
      error := false;
    }
  }
}

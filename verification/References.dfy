// Variable references in setting values: their syntax, and what they stand for.
module References {
  import opened Wrappers
  import opened Characters
  import opened ConfigNames

  datatype SubstError = MissingName | NotOneArgument | InvalidSyntax | UnmatchedBrace | MissingArgument | TooLong

  datatype AltMode = NoAlt | Minus | Plus

  // length is that of the text of the reference, from the dollar sign on
  datatype Reference = Reference(split: bool, isArg: bool, name: string, mode: AltMode, colon: bool, alt: string, length: nat)

  // the text of a reference starts t, a token from some dollar sign on
  function Parse(t: string): (r: Result<Reference, SubstError>)
    requires t != ""
    ensures r.Ok? ==> 1 < r.value.length <= |t|
  {
    var split := At(t, 1) == '/';
    var p := if split then 2 else 1;
    var brace := At(t, p) == '{';
    var q := if brace then p + 1 else p;
    var rest := t[q..];
    var n := NameLength(rest, true);
    var isArg := IsNumber(rest, true);
    if n == 0 then Err(MissingName)
    else if isArg && rest[..n] != "1" then Err(NotOneArgument)
    else if !brace then Ok(Reference(split, isArg, rest[..n], NoAlt, false, "", q + n))
    else ParseAlt(t, split, isArg, rest[..n], q + n)
  }

  // the alternative value in a reference is all there is before the closing brace
  function AltLength(t: string): (n: nat)
    ensures n <= |t|
  {
    Run(t, c => c != '}')
  }

  // the rest of a reference in braces, whose name ends at j
  function ParseAlt(t: string, split: bool, isArg: bool, name: string, j: nat): (r: Result<Reference, SubstError>)
    requires 0 < j <= |t|
    ensures r.Ok? ==> 1 < r.value.length <= |t|
  {
    var colon := At(t, j) == ':';
    var k := if colon then j + 1 else j;
    if At(t, k) != '+' && At(t, k) != '-' then
      if colon then Err(InvalidSyntax)
      else if At(t, k) != '}' then Err(UnmatchedBrace)
      else Ok(Reference(split, isArg, name, NoAlt, false, "", k + 1))
    else
      var rest := t[k + 1..];
      var n := AltLength(rest);
      if At(t, k + 1 + n) != '}' then Err(UnmatchedBrace)
      else Ok(Reference(split, isArg, name, if At(t, k) == '-' then Minus else Plus, colon, rest[..n], k + n + 2))
  }

  // what the reference stands for
  function Value(ref: Reference, env: map<string, string>, arg: Option<string>): Result<string, SubstError> {
    var resolved := if ref.isArg then arg else if ref.name in env then Some(env[ref.name]) else None;
    var isSet := resolved.Some? && !(ref.colon && resolved.value == "");
    match ref.mode
    case Minus => Ok(if isSet then resolved.value else ref.alt)
    case Plus => Ok(if isSet then ref.alt else if resolved.Some? then resolved.value else "")
    case NoAlt =>
      if resolved.Some? then Ok(resolved.value) else if ref.isArg then Err(MissingArgument) else Ok("")
  }

  // At the end of a token the character read is not one of those that matter
  lemma ReadInToken(line: string, d: nat, end: nat, k: nat)
    requires d <= k <= end <= |line| && (end < |line| ==> IsSpace(line[end]))
    ensures var c, e := At(line, k), At(line[d..end], k - d);
      && (c == '/' <==> e == '/') && (c == '{' <==> e == '{') && (c == '}' <==> e == '}')
      && (c == ':' <==> e == ':') && (c == '+' <==> e == '+') && (c == '-' <==> e == '-')
    ensures !IsDigit(At(line, end))
  {
  }

  lemma Tail(line: string, d: nat, end: nat, k: nat, n: nat)
    requires d <= k <= end <= |line| && n <= end - k
    ensures line[d..end][k - d..] == line[k..end] && line[k..end][..n] == line[k..k + n]
  {
  }

  // Read the reference at dollar sign d of a token that ends at end
  method ReadReference(line: string, d: nat, end: nat) returns (r: Result<Reference, SubstError>)
    requires d < end <= |line| && line[d] == '$' && (end < |line| ==> IsSpace(line[end]))
    ensures r == Parse(line[d..end])
  {
    hide At, NameLength, IsNumber, ParseAlt;
    var pos := d + 1;
    ReadInToken(line, d, end, pos);
    var split := At(line, pos) == '/';
    if split {
      AtInside(line, d, end, pos, '/');
      pos := pos + 1;
    }
    ReadInToken(line, d, end, pos);
    var brace := At(line, pos) == '{';
    if brace {
      AtInside(line, d, end, pos, '{');
      pos := pos + 1;
    }
    ReadInToken(line, d, end, pos);
    var name, isArg, j := ReadConfigName(line, pos, end, true);
    Tail(line, d, end, pos, j - pos);
    if name == "" {
      return Err(MissingName);
    } else if isArg && name != "1" {
      return Err(NotOneArgument);
    }
    if !brace {
      return Ok(Reference(split, isArg, name, NoAlt, false, "", j - d));
    }
    r := ReadAlt(line, d, end, split, isArg, name, j);
  }

  lemma AtInside(line: string, d: nat, end: nat, k: nat, c: char)
    requires d <= k <= end <= |line| && (end < |line| ==> IsSpace(line[end]))
    requires At(line, k) == c && !IsSpace(c) && c != 0 as char
    ensures k < end && line[k] == c && line[d..end][k - d] == c
  {
  }

  // the rest of a reference in braces, whose name ends at p
  method ReadAlt(line: string, d: nat, end: nat, split: bool, isArg: bool, name: string, p: nat) returns (r: Result<Reference, SubstError>)
    requires d < p <= end <= |line| && (end < |line| ==> IsSpace(line[end]))
    ensures r == ParseAlt(line[d..end], split, isArg, name, p - d)
  {
    hide At, AltLength;
    var j := p;
    var colon := false;
    var mode, alt := NoAlt, "";
    ReadInToken(line, d, end, j);
    if At(line, j) == ':' {
      AtInside(line, d, end, j, ':');
      colon := true;
      j := j + 1;
      ReadInToken(line, d, end, j);
      if At(line, j) != '+' && At(line, j) != '-' {
        return Err(InvalidSyntax);
      }
    }
    if At(line, j) == '+' || At(line, j) == '-' {
      AtInside(line, d, end, j, At(line, j));
      mode := if At(line, j) == '-' then Minus else Plus;
      j := j + 1;
      var altBegin := j;
      j := ReadAltText(line, altBegin, end);
      alt := line[altBegin..j];
      Tail(line, d, end, altBegin, j - altBegin);
      ReadInToken(line, d, end, j);
    }
    if At(line, j) != '}' {
      return Err(UnmatchedBrace);
    }
    AtInside(line, d, end, j, '}');
    r := Ok(Reference(split, isArg, name, mode, colon, alt, j + 1 - d));
  }

  method ReadAltText(line: string, altBegin: nat, end: nat) returns (j: nat)
    requires altBegin <= end <= |line|
    ensures altBegin <= j <= end && j - altBegin == AltLength(line[altBegin..end])
  {
    j := altBegin;
    while j < end && line[j] != '}'
      invariant altBegin <= j <= end
      invariant forall k :: altBegin <= k < j ==> line[k] != '}'
    {
      j := j + 1;
    }
    RunIs(line[altBegin..end], c => c != '}', j - altBegin);
  }

  // ---- writing references ----

  // the name of a variable, or 1 for the argument
  predicate IsVariable(name: string, isArg: bool) {
    if isArg then name == "1"
    else name != "" && !IsDigit(name[0]) && forall k :: 0 <= k < |name| ==> IsNameChar(name[k], true)
  }

  // the alternative value with its operator
  function Alternative(ref: Reference): string {
    (if ref.colon then ":" else "") +
    match ref.mode
    case NoAlt => ""
    case Minus => "-" + ref.alt
    case Plus => "+" + ref.alt
  }

  function Opening(split: bool): string {
    if split then "$/{" else "${"
  }

  function Braced(ref: Reference): string {
    Opening(ref.split) + (ref.name + (Alternative(ref) + "}"))
  }

  predicate IsBraced(ref: Reference) {
    && IsVariable(ref.name, ref.isArg) && '}' !in ref.alt && (ref.mode == NoAlt ==> ref.alt == "" && !ref.colon)
    && ref.length == |Braced(ref)|
  }

  // A reference written in braces is read back as it is, whatever follows it
  lemma ParseBraced(ref: Reference, rest: string)
    requires IsBraced(ref)
    ensures Parse(Braced(ref) + rest) == Ok(ref)
  {
    hide NameLength, IsNumber, ParseAlt, Braced, Alternative, IsVariable;
    var t := Braced(ref) + rest;
    var tail := Alternative(ref) + ("}" + rest);
    var q := if ref.split then 3 else 2;
    BracedParts(ref, rest);
    NameRead(ref.name, ref.isArg, tail);
    AltRead(t, ref, q + |ref.name|, rest);
  }

  lemma BracedParts(ref: Reference, rest: string)
    requires IsBraced(ref)
    ensures ref.length == |Braced(ref)|
    ensures var t, tail, q := Braced(ref) + rest, Alternative(ref) + ("}" + rest), if ref.split then 3 else 2;
      && |t| >= q + |ref.name| && t[q..] == ref.name + tail && t[q + |ref.name|..] == tail
      && t[1] == (if ref.split then '/' else '{') && t[q - 1] == '{' && |t| - |rest| == ref.length
      && EndsName(tail)
  {
    hide IsVariable;
    var t := Braced(ref) + rest;
    var tail := Alternative(ref) + ("}" + rest);
    assert t == Opening(ref.split) + (ref.name + tail);
  }

  predicate EndsName(s: string) {
    s != "" && (s[0] == ':' || s[0] == '+' || s[0] == '-' || s[0] == '}')
  }

  lemma NameRead(name: string, isArg: bool, tail: string)
    requires IsVariable(name, isArg) && EndsName(tail)
    ensures NameLength(name + tail, true) == |name| && IsNumber(name + tail, true) == isArg && (name + tail)[..|name|] == name
    ensures name != "" && (isArg ==> name == "1")
  {
    var s := name + tail;
    assert s[|name|] == tail[0];
    if isArg {
      RunIs(s, IsDigit, |name|);
    } else {
      RunIs(s, c => IsNameChar(c, true), |name|);
    }
  }

  lemma AltRead(t: string, ref: Reference, j: nat, rest: string)
    requires IsBraced(ref) && 0 < j <= |t| && t[j..] == Alternative(ref) + ("}" + rest)
    ensures ParseAlt(t, ref.split, ref.isArg, ref.name, j) == Ok(ref.(length := |t| - |rest|))
  {
    hide IsVariable, Braced, AltLength;
    assert t[j] == t[j..][0];
    var k := if ref.colon then j + 1 else j;
    AltFrom(t, ref, j, rest);
    if ref.mode != NoAlt {
      AltTextRead(t, k, ref.alt, rest);
    }
  }

  lemma AltFrom(t: string, ref: Reference, j: nat, rest: string)
    requires IsBraced(ref) && j <= |t| && t[j..] == Alternative(ref) + ("}" + rest)
    ensures var k := if ref.colon then j + 1 else j;
      && j < |t| && k < |t| && (ref.colon <==> t[j] == ':')
      && t[k] == (if ref.mode == NoAlt then '}' else if ref.mode == Minus then '-' else '+')
      && (ref.mode != NoAlt ==> t[k..] == [t[k]] + ref.alt + ("}" + rest))
      && (ref.mode == NoAlt ==> k + 1 == |t| - |rest|)
  {
    hide IsVariable, Braced;
    var u := t[j..];
    var k := if ref.colon then j + 1 else j;
    assert t[j] == u[0];
    assert t[k..] == u[k - j..];
    assert t[k] == u[k - j];
  }

  lemma AltTextRead(t: string, k: nat, alt: string, rest: string)
    requires k < |t| && '}' !in alt && t[k..] == [t[k]] + alt + ("}" + rest)
    ensures AltLength(t[k + 1..]) == |alt| && t[k + 1..][..|alt|] == alt && At(t, k + 1 + |alt|) == '}' && k + |alt| + 2 == |t| - |rest|
  {
    var u := t[k + 1..];
    assert u == t[k..][1..] == alt + ("}" + rest);
    assert u[|alt|] == '}';
    RunIs(u, c => c != '}', |alt|);
  }
}

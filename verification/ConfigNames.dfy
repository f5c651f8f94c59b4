module ConfigNames {
  import opened Characters

  predicate IsNameChar(c: char, env: bool) {
    || ((c == '-' || c == '.') && !env)
    || c == '_'
    || (!IsControl(c) && !IsPunctuation(c) && !IsSpace(c))
  }

  // A number, where variables are looked up
  predicate IsNumber(s: string, env: bool) {
    env && s != "" && IsDigit(s[0])
  }

  // the length of the name s starts with, 0 if there is none
  function NameLength(s: string, env: bool): (n: nat)
    ensures n <= |s|
  {
    if IsNumber(s, env) then Run(s, IsDigit)
    else if s == "" || s[0] == '-' || s[0] == '.' || IsDigit(s[0]) then 0
    else Run(s, c => IsNameChar(c, env))
  }

  // Digits are read up to the first other character, wherever the text to read ends
  method ReadConfigName(s: string, i: nat, end: nat, env: bool) returns (name: string, num: bool, j: nat)
    requires i <= end <= |s| && (env ==> !IsDigit(At(s, end)))
    ensures i <= j <= end && name == s[i..j]
    ensures j - i == NameLength(s[i..end], env)
    ensures num <==> IsNumber(s[i..end], env)
  {
    name, num, j := "", false, i;
    if env && IsDigit(At(s, j)) {
      while IsDigit(At(s, j))
        invariant i <= j <= end && name == s[i..j]
        invariant forall k :: i <= k < j ==> IsDigit(s[k])
        decreases end - j
      {
        name := name + [s[j]];
        j := j + 1;
      }
      num := true;
      RunIs(s[i..end], IsDigit, j - i);
      return;
    }
    if i == end || s[i] == '-' || s[i] == '.' || IsDigit(s[i]) {
      return;
    }
    while j < end && IsNameChar(s[j], env)
      invariant i <= j <= end && name == s[i..j]
      invariant forall k :: i <= k < j ==> IsNameChar(s[k], env)
    {
      name := name + [s[j]];
      j := j + 1;
    }
    RunIs(s[i..end], c => IsNameChar(c, env), j - i);
  }
}

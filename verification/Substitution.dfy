// Substitution of variables in the tokens of a setting value.
module Substitution {
  import opened Wrappers
  import opened Characters
  import opened References

  datatype Span = Span(first: int, second: int)

  const MAX_LENGTH: nat := 0x7fff_ffff

  // ---- what a token turns into ----

  // A character of a word, a place to split, or the mark of an expansion that keeps its word from vanishing
  datatype Atom = Plain(c: char) | Break | Keep

  function Unsplit(v: string): (r: seq<Atom>)
    ensures |r| == |v| && Break !in r
  {
    seq(|v|, i requires 0 <= i < |v| => Plain(v[i]))
  }

  function SplitAtoms(v: string): (r: seq<Atom>)
    ensures |r| == |v|
  {
    seq(|v|, i requires 0 <= i < |v| => if IsSpace(v[i]) then Break else Plain(v[i]))
  }

  datatype Expansion = Expansion(atoms: seq<Atom>, split: bool)

  // All references in t replaced, and whether any asks for splitting
  function Expand(t: string, env: map<string, string>, arg: Option<string>): Result<Expansion, SubstError>
    decreases |t|
  {
    if t == "" then Ok(Expansion([], false))
    else if t[0] != '$' then Before([Plain(t[0])], false, Expand(t[1..], env, arg))
    else if At(t, 1) == '$' then Before([Plain('$')], false, Expand(t[2..], env, arg))
    else
      match Parse(t)
      case Err(e) => Err(e)
      case Ok(ref) =>
        match Value(ref, env, arg)
        case Err(e) => Err(e)
        case Ok(v) => Before(if ref.split then SplitAtoms(v) else [Keep] + Unsplit(v), ref.split, Expand(t[ref.length..], env, arg))
  }

  function Before(atoms: seq<Atom>, split: bool, r: Result<Expansion, SubstError>): Result<Expansion, SubstError> {
    if r.Err? then r else Ok(Expansion(atoms + r.value.atoms, split || r.value.split))
  }

  // the stretches between breaks, when g comes before the atoms
  function Groups(g: seq<Atom>, atoms: seq<Atom>): seq<seq<Atom>>
    decreases |atoms|
  {
    if atoms == [] then [g]
    else if atoms[0].Break? then [g] + Groups([], atoms[1..])
    else Groups(g + [atoms[0]], atoms[1..])
  }

  function Text(g: seq<Atom>): string {
    if g == [] then "" else Text(g[..|g| - 1]) + if g[|g| - 1].Plain? then [g[|g| - 1].c] else ""
  }

  // splitting makes empty stretches vanish
  function Words(groups: seq<seq<Atom>>, split: bool): seq<string> {
    if groups == [] then []
    else (if split && groups[0] == [] then [] else [Text(groups[0])]) + Words(groups[1..], split)
  }

  // the arguments a token stands for
  function Flatten(t: string, env: map<string, string>, arg: Option<string>): Result<seq<string>, SubstError> {
    match Expand(t, env, arg)
    case Err(e) => Err(e)
    case Ok(x) => Ok(Words(Groups([], x.atoms), x.split))
  }

  // ---- the same, a character at a time ----

  // words finished and the one being written; keep: it does not vanish; drop: the last one may; length of the output
  datatype State = State(words: seq<string>, cur: string, keep: bool, drop: bool, length: int)

  function Start(length: int): State {
    State([], "", false, false, length)
  }

  function Put(st: State, v: string): State {
    st.(cur := st.cur + v, length := st.length + |v|)
  }

  function EndWord(st: State): State {
    st.(words := st.words + [st.cur], cur := "", keep := false, length := st.length + 1)
  }

  function SplitInto(st: State, v: string): (r: Result<State, SubstError>)
    ensures r.Err? ==> r.error.TooLong?
    decreases |v|
  {
    if v == "" then Ok(st)
    else if !IsSpace(v[0]) then SplitInto(Put(st, [v[0]]), v[1..])
    else if st.cur == "" && !st.keep then SplitInto(st, v[1..])
    else if st.length + 1 > MAX_LENGTH then Err(TooLong)
    else SplitInto(EndWord(st), v[1..])
  }

  function PutValue(st: State, split: bool, v: string): Result<State, SubstError> {
    var r := if split then SplitInto(st, v) else Ok(Put(st, v).(keep := true));
    match r
    case Err(e) => r
    case Ok(s) => if s.length > MAX_LENGTH then Err(TooLong) else Ok(s.(drop := !s.keep))
  }

  function Eval(t: string, st: State, env: map<string, string>, arg: Option<string>): Result<State, SubstError>
    decreases |t|
  {
    if t == "" then Ok(st)
    else if t[0] != '$' then Eval(t[1..], Put(st, [t[0]]), env, arg)
    else if At(t, 1) == '$' then Eval(t[2..], Put(st, "$"), env, arg)
    else
      match Parse(t)
      case Err(e) => Err(e)
      case Ok(ref) =>
        match Value(ref, env, arg)
        case Err(e) => Err(e)
        case Ok(v) =>
          match PutValue(st, ref.split, v)
          case Err(e) => Err(e)
          case Ok(s) => Eval(t[ref.length..], s, env, arg)
  }

  function Finish(st: State): seq<string> {
    st.words + if st.drop && st.cur == "" then [] else [st.cur]
  }

  // ---- agreement of the two ----

  // g is the stretch that st is writing
  ghost predicate Writes(st: State, g: seq<Atom>) {
    && st.cur == Text(g) && (st.keep <==> Keep in g) && Break !in g
  }

  lemma WritesEmpty(st: State, g: seq<Atom>)
    requires Writes(st, g)
    ensures g == [] <==> st.cur == "" && !st.keep
  {
    if g != [] && !st.keep {
      assert g[|g| - 1] in g;
    }
  }

  lemma WritesMore(st: State, g: seq<Atom>, c: char)
    requires Writes(st, g)
    ensures Writes(Put(st, [c]), g + [Plain(c)])
  {
    assert (g + [Plain(c)])[..|g|] == g;
  }

  // the stretch being written once v has been split into words
  function LastStretch(g: seq<Atom>, v: string): seq<Atom>
    decreases |v|
  {
    if v == "" then g
    else if IsSpace(v[0]) then LastStretch([], v[1..])
    else LastStretch(g + [Plain(v[0])], v[1..])
  }

  lemma SplitAtomsStep(v: string, rest: seq<Atom>)
    requires v != ""
    ensures (SplitAtoms(v) + rest)[0] == if IsSpace(v[0]) then Break else Plain(v[0])
    ensures (SplitAtoms(v) + rest)[1..] == SplitAtoms(v[1..]) + rest
  {
  }

  lemma EndsWord(st: State, g: seq<Atom>, a: seq<Atom>)
    requires Writes(st, g) && a != [] && a[0].Break?
    ensures g == [] <==> st.cur == "" && !st.keep
    ensures Writes(if g == [] then st else EndWord(st), [])
    ensures st.words + Words(Groups(g, a), true) == (if g == [] then st else EndWord(st)).words + Words(Groups([], a[1..]), true)
  {
    hide Writes, Text;
    WritesEmpty(st, g);
    TextOf(st, g);
    WritesNothing(if g == [] then st else EndWord(st));
    var more := Groups([], a[1..]);
    assert ([g] + more)[1..] == more;
    assert Groups(g, a) == [g] + more;
  }

  lemma WritesNothing(st: State)
    requires st.cur == "" && !st.keep
    ensures Writes(st, [])
  {
  }

  lemma TextOf(st: State, g: seq<Atom>)
    requires Writes(st, g)
    ensures Text(g) == st.cur
  {
  }

  lemma {:induction false} SplitIntoIsGroups(st: State, g: seq<Atom>, v: string, rest: seq<Atom>)
    requires Writes(st, g) && SplitInto(st, v).Ok?
    ensures var st2, g2 := SplitInto(st, v).value, LastStretch(g, v);
      && Writes(st2, g2)
      && st.words + Words(Groups(g, SplitAtoms(v) + rest), true) == st2.words + Words(Groups(g2, rest), true)
    decreases |v|
  {
    if v == "" {
      assert SplitAtoms(v) + rest == rest;
    } else {
      hide Writes, SplitAtoms, Text, Words;
      SplitAtomsStep(v, rest);
      if !IsSpace(v[0]) {
        WritesMore(st, g, v[0]);
        SplitIntoIsGroups(Put(st, [v[0]]), g + [Plain(v[0])], v[1..], rest);
      } else {
        EndsWord(st, g, SplitAtoms(v) + rest);
        SplitIntoIsGroups(if g == [] then st else EndWord(st), [], v[1..], rest);
      }
    }
  }

  lemma {:induction false} GroupsNoBreak(g: seq<Atom>, a: seq<Atom>, rest: seq<Atom>)
    requires Break !in a
    ensures Groups(g, a + rest) == Groups(g + a, rest)
    decreases |a|
  {
    if a == [] {
      assert a + rest == rest && g + a == g;
    } else {
      assert (a + rest)[1..] == a[1..] + rest;
      assert g + [a[0]] + a[1..] == g + a;
      GroupsNoBreak(g + [a[0]], a[1..], rest);
    }
  }

  lemma {:induction false} WritesAll(st: State, g: seq<Atom>, v: string)
    requires Writes(st, g)
    ensures Writes(Put(st, v), g + Unsplit(v))
    decreases |v|
  {
    if v == "" {
      assert g + Unsplit(v) == g && st.cur + v == st.cur;
    } else {
      var n := |v| - 1;
      WritesAll(st, g, v[..n]);
      WritesMore(Put(st, v[..n]), g + Unsplit(v[..n]), v[n]);
      assert g + Unsplit(v[..n]) + [Plain(v[n])] == g + Unsplit(v);
      assert st.cur + v[..n] + [v[n]] == st.cur + v;
    }
  }

  lemma WritesKeep(st: State, g: seq<Atom>)
    requires Writes(st, g)
    ensures Writes(st.(keep := true), g + [Keep])
  {
    assert (g + [Keep])[..|g|] == g;
  }

  // how the state ends a token: dropping goes with an empty stretch after splitting
  ghost predicate Ends(st: State, g: seq<Atom>, split: bool) {
    st.drop && st.cur == "" <==> split && g == []
  }

  // r is what st becomes, having written g, over a stretch that expands to x
  ghost predicate Agrees(r: Result<State, SubstError>, x: Result<Expansion, SubstError>, st: State, g: seq<Atom>, split: bool) {
    match r
    case Ok(s) => x.Ok? && Finish(s) == st.words + Words(Groups(g, x.value.atoms), split || x.value.split)
    case Err(e) => e.TooLong? || x == Err(e)
  }

  lemma {:induction false} EvalIsExpand(t: string, st: State, g: seq<Atom>, split: bool, env: map<string, string>, arg: Option<string>)
    requires Writes(st, g) && Ends(st, g, split)
    ensures Agrees(Eval(t, st, env, arg), Expand(t, env, arg), st, g, split)
    decreases |t|, 0
  {
    if t == "" {
      assert Words([g], split) == (if split && g == [] then [] else [Text(g)]) + [];
    } else {
      hide Agrees, Writes, Ends, SplitInto, PutValue, Before, SplitAtoms, Unsplit, Parse, Value;
      if t[0] != '$' {
        EvalPlainStep(t[0], t[1..], st, g, split, env, arg);
      } else if At(t, 1) == '$' {
        EvalPlainStep('$', t[2..], st, g, split, env, arg);
      } else if Parse(t).Err? {
        ErrAgrees(Parse(t).error, st, g, split);
      } else if Value(Parse(t).value, env, arg).Err? {
        ErrAgrees(Value(Parse(t).value, env, arg).error, st, g, split);
      } else {
        var ref, v := Parse(t).value, Value(Parse(t).value, env, arg).value;
        EvalValueStep(ref.split, v, t[ref.length..], st, g, split, env, arg);
      }
    }
  }

  lemma ErrAgrees(e: SubstError, st: State, g: seq<Atom>, split: bool)
    ensures Agrees(Err(e), Err(e), st, g, split)
  {
  }

  lemma EvalValueStep(splits: bool, v: string, t: string, st: State, g: seq<Atom>, split: bool, env: map<string, string>, arg: Option<string>)
    requires Writes(st, g) && Ends(st, g, split)
    ensures var put := PutValue(st, splits, v);
      Agrees(if put.Ok? then Eval(t, put.value, env, arg) else put,
             Before(if splits then SplitAtoms(v) else [Keep] + Unsplit(v), splits, Expand(t, env, arg)), st, g, split)
    decreases |t|, 1
  {
    if PutValue(st, splits, v).Ok? {
      var s := PutValue(st, splits, v).value;
      var x := Expand(t, env, arg);
      var rest := if x.Ok? then x.value.atoms else [];
      if splits {
        SplitIntoIsGroups(st, g, v, rest);
        WritesEmpty(s, LastStretch(g, v));
        EvalIsExpand(t, s, LastStretch(g, v), true, env, arg);
      } else {
        WritesKeep(st, g);
        WritesAll(st.(keep := true), g + [Keep], v);
        assert g + [Keep] + Unsplit(v) == g + ([Keep] + Unsplit(v));
        GroupsNoBreak(g, [Keep] + Unsplit(v), rest);
        EvalIsExpand(t, s, g + [Keep] + Unsplit(v), split, env, arg);
      }
    }
  }

  lemma EvalPlainStep(c: char, t: string, st: State, g: seq<Atom>, split: bool, env: map<string, string>, arg: Option<string>)
    requires Writes(st, g)
    ensures Agrees(Eval(t, Put(st, [c]), env, arg), Before([Plain(c)], false, Expand(t, env, arg)), st, g, split)
    decreases |t|, 1
  {
    WritesMore(st, g, c);
    EvalIsExpand(t, Put(st, [c]), g + [Plain(c)], split, env, arg);
    if Expand(t, env, arg).Ok? {
      var x := Before([Plain(c)], false, Expand(t, env, arg)).value;
      assert x.atoms[1..] == Expand(t, env, arg).value.atoms;
    }
  }

  function FinishAll(r: Result<State, SubstError>): Result<seq<string>, SubstError> {
    if r.Err? then Err(r.error) else Ok(Finish(r.value))
  }

  // Of a token on its own, wherever in the output it starts, and unless the output gets too long
  lemma EvalIsFlatten(t: string, length: int, env: map<string, string>, arg: Option<string>)
    ensures var r := FinishAll(Eval(t, Start(length), env, arg));
      r == Flatten(t, env, arg) || r == Err(TooLong)
  {
    EvalIsExpand(t, Start(length), [], false, env, arg);
    if Expand(t, env, arg).Ok? {
      var x := Expand(t, env, arg).value;
      assert [] + Words(Groups([], x.atoms), x.split) == Words(Groups([], x.atoms), x.split);
    }
  }
}

// The substitution of variables in place: one pass over the line, with the token positions kept in step.
module TokenSubstitution {
  import opened Wrappers
  import opened Characters
  import opened References
  import opened Substitution

  // Tokens in order, each followed by white space or the end of the line
  ghost predicate Laid(line: string, offsets: seq<Span>) {
    && (forall k :: 0 <= k < |offsets| ==>
          && 0 <= offsets[k].first <= offsets[k].second <= |line|
          && (offsets[k].second < |line| ==> IsSpace(line[offsets[k].second])))
    && (forall j, k :: 0 <= j < k < |offsets| ==> offsets[j].second < offsets[k].first)
  }

  ghost predicate InToken(offsets: seq<Span>, p: nat) {
    exists k :: 0 <= k < |offsets| && offsets[k].first <= p < offsets[k].second
  }

  ghost predicate Tokens(line: string, offsets: seq<Span>) {
    Laid(line, offsets) && forall p :: 0 <= p < |line| && line[p] == '$' ==> InToken(offsets, p)
  }

  ghost function Token(line: string, offsets: seq<Span>, m: nat): string
    requires Laid(line, offsets) && m < |offsets|
  {
    line[offsets[m].first..offsets[m].second]
  }

  // the tokens from m on, where output positions are ahead of input positions by adj
  ghost function EvalTokens(line: string, offsets: seq<Span>, m: nat, adj: int, env: map<string, string>, arg: Option<string>): Result<seq<string>, SubstError>
    requires Laid(line, offsets) && m <= |offsets|
    decreases |offsets| - m
  {
    if m == |offsets| then Ok([])
    else
      match Eval(Token(line, offsets, m), Start(offsets[m].first + adj), env, arg)
      case Err(e) => Err(e)
      case Ok(st) => Prepend(Finish(st), EvalTokens(line, offsets, m + 1, st.length - offsets[m].second, env, arg))
  }

  ghost function Prepend(words: seq<string>, r: Result<seq<string>, SubstError>): Result<seq<string>, SubstError> {
    if r.Err? then r else Ok(words + r.value)
  }

  // spans of p that spell the words, in order, each followed by white space, or by the end unless more is to come
  ghost predicate Spells(p: string, offs: seq<Span>, words: seq<string>, open: bool) {
    && |offs| == |words|
    && (forall k :: 0 <= k < |offs| ==>
          && 0 <= offs[k].first <= offs[k].second <= |p|
          && p[offs[k].first..offs[k].second] == words[k]
          && (if offs[k].second < |p| then IsSpace(p[offs[k].second]) else !open))
    && (forall j, k :: 0 <= j < k < |offs| ==> offs[j].second < offs[k].first)
  }

  lemma SpellsOn(p: string, q: string, offs: seq<Span>, words: seq<string>, open: bool)
    requires Spells(p, offs, words, true)
    ensures Spells(p + q, offs, words, open)
  {
    forall k | 0 <= k < |offs| ensures (p + q)[offs[k].first..offs[k].second] == words[k] {
      assert (p + q)[offs[k].first..offs[k].second] == p[offs[k].first..offs[k].second];
    }
  }

  ghost predicate Below(offs: seq<Span>, limit: int) {
    forall k :: 0 <= k < |offs| ==> offs[k].second < limit
  }

  // in token i: the words before it are written, and its own begins at its first position
  ghost predicate Writing(rline: string, offs: seq<Span>, i: nat, before: seq<string>, st: State) {
    && i < |offs| && Spells(rline, offs[..i], before + st.words, true) && Below(offs[..i], offs[i].first)
    && 0 <= offs[i].first <= |rline| && rline[offs[i].first..] == st.cur && st.length == |rline|
  }

  lemma WritingMore(rline: string, offs: seq<Span>, i: nat, before: seq<string>, st: State, v: string)
    requires Writing(rline, offs, i, before, st)
    ensures Writing(rline + v, offs, i, before, Put(st, v))
  {
    SpellsOn(rline, v, offs[..i], before + st.words, true);
    assert (rline + v)[offs[i].first..] == rline[offs[i].first..] + v;
  }

  lemma WritingKeep(rline: string, offs: seq<Span>, i: nat, before: seq<string>, st: State, keep: bool, drop: bool)
    requires Writing(rline, offs, i, before, st)
    ensures Writing(rline, offs, i, before, st.(keep := keep, drop := drop))
  {
  }

  lemma WritingBreak(rline: string, offs: seq<Span>, offs2: seq<Span>, i: nat, before: seq<string>, st: State)
    requires Writing(rline, offs, i, before, st)
    requires offs2 == offs[..i] + [Span(offs[i].first, |rline|), Span(|rline| + 1, offs[i].second)] + offs[i + 1..]
    ensures Writing(rline + " ", offs2, i + 1, before, EndWord(st))
  {
    SpellsOn(rline, " ", offs[..i], before + st.words, true);
    var words := before + EndWord(st).words;
    assert offs2[..i + 1] == offs[..i] + [Span(offs[i].first, |rline|)];
    assert words == before + st.words + [st.cur];
    assert (rline + " ")[offs[i].first..|rline|] == rline[offs[i].first..];
    forall k | 0 <= k < i ensures offs2[k] == offs[..i][k] && words[k] == (before + st.words)[k] {
    }
  }

  lemma PutTwice(st: State, v: string, w: string)
    ensures Put(Put(st, v), w) == Put(st, v + w)
  {
    assert st.cur + v + w == st.cur + (v + w);
  }

  lemma {:induction false} SplitPlain(st: State, v: string, n: nat)
    requires n <= |v| && forall k :: 0 <= k < n ==> !IsSpace(v[k])
    ensures SplitInto(st, v) == SplitInto(Put(st, v[..n]), v[n..])
    decreases n
  {
    if n == 0 {
      assert st.cur + "" == st.cur && v[0..] == v;
      assert Put(st, v[..0]) == st;
    } else {
      var t := v[1..];
      assert t[..n - 1] == v[1..n] && t[n - 1..] == v[n..];
      hide Put;
      SplitPlain(Put(st, [v[0]]), t, n - 1);
      PutTwice(st, [v[0]], v[1..n]);
      assert [v[0]] + v[1..n] == v[..n];
    }
  }

  lemma {:induction false} SplitSpaces(st: State, v: string, n: nat)
    requires n <= |v| && (forall k :: 0 <= k < n ==> IsSpace(v[k])) && st.cur == "" && !st.keep
    ensures SplitInto(st, v) == SplitInto(st, v[n..])
    decreases n
  {
    if n == 0 {
      assert v[0..] == v;
    } else {
      assert v[1..][n - 1..] == v[n..];
      SplitSpaces(st, v[1..], n - 1);
    }
  }

  lemma SplitRun(st: State, v: string, beg: nat, wsp: nat)
    requires beg <= wsp <= |v| && forall k :: beg <= k < wsp ==> !IsSpace(v[k])
    ensures SplitInto(st, v[beg..]) == SplitInto(Put(st, v[beg..wsp]), v[wsp..])
    ensures SplitInto(st, "") == Ok(st)
  {
    SplitPlain(st, v[beg..], wsp - beg);
    assert v[beg..][..wsp - beg] == v[beg..wsp] && v[beg..][wsp - beg..] == v[wsp..];
  }

  lemma SplitGap(st: State, v: string, wsp: nat, next: nat)
    requires wsp < next <= |v| && forall k :: wsp <= k < next ==> IsSpace(v[k])
    ensures SplitInto(st, v[wsp..]) ==
      if st.cur == "" && !st.keep then SplitInto(st, v[next..])
      else if st.length + 1 > MAX_LENGTH then Err(TooLong)
      else SplitInto(EndWord(st), v[next..])
  {
    assert v[wsp..][1..] == v[wsp + 1..] && v[wsp + 1..][next - wsp - 1..] == v[next..];
    SplitSpaces(if st.cur == "" && !st.keep then st else EndWord(st), v[wsp + 1..], next - wsp - 1);
  }

  lemma WritingAt(rline: string, offs: seq<Span>, i: nat, before: seq<string>, st: State)
    requires Writing(rline, offs, i, before, st)
    ensures i < |offs| && 0 <= offs[i].first <= |rline| == st.length
    ensures st.cur == "" <==> offs[i].first == |rline|
  {
  }

  // end the word being written, and begin another with what is left of its token
  method EndToken(rline: string, offs0: seq<Span>, i: nat, ghost before: seq<string>, ghost st: State) returns (offs: seq<Span>)
    requires Writing(rline, offs0, i, before, st)
    ensures Writing(rline + " ", offs, i + 1, before, EndWord(st))
    ensures offs[i + 1].second == offs0[i].second && offs[i + 2..] == offs0[i + 1..]
  {
    var second := offs0[i].second;
    offs := offs0[i := Span(offs0[i].first, |rline|)];
    offs := offs[..i + 1] + [Span(|rline| + 1, second)] + offs[i + 1..];
    assert offs == offs0[..i] + [Span(offs0[i].first, |rline|), Span(|rline| + 1, second)] + offs0[i + 1..];
    WritingBreak(rline, offs0, offs, i, before, st);
  }

  // Split the value v into words; fails if the output gets too long
  method SplitWords(rline0: string, offs0: seq<Span>, i0: nat, inhibit0: bool, offadj0: int, v: string, ghost before: seq<string>, ghost st: State)
    returns (ok: bool, rline: string, offs: seq<Span>, i: nat, inhibit: bool, offadj: int)
    requires Writing(rline0, offs0, i0, before, st) && inhibit0 == st.keep
    ensures ok <==> SplitInto(st, v).Ok?
    ensures ok ==>
              && var s := SplitInto(st, v).value;
              && Writing(rline, offs, i, before, s) && inhibit == s.keep
              && offs[i].second == offs0[i0].second && offs[i + 1..] == offs0[i0 + 1..]
              && offadj == offadj0 + |rline| - |rline0|
  {
    hide Writing, SplitInto;
    ok, rline, offs, i, inhibit, offadj := true, rline0, offs0, i0, inhibit0, offadj0;
    var lenBefore := |rline|;
    var beg := 0;
    ghost var s := st;
    assert v[beg..] == v;
    var wsp := FindSpace(v, beg);
    WritingAt(rline, offs, i, before, s);
    while wsp != |v|
      invariant beg <= wsp <= |v| && (forall n :: beg <= n < wsp ==> !IsSpace(v[n])) && (wsp < |v| ==> IsSpace(v[wsp]))
      invariant Writing(rline, offs, i, before, s) && i < |offs| && inhibit == s.keep
      invariant SplitInto(st, v) == SplitInto(s, v[beg..])
      invariant offs[i].second == offs0[i0].second && offs[i + 1..] == offs0[i0 + 1..]
      invariant offadj - offadj0 == |rline| - |rline0| && lenBefore == |rline|
      decreases |v| - wsp
    {
      SplitRun(s, v, beg, wsp);
      WritingMore(rline, offs, i, before, s, v[beg..wsp]);
      s := Put(s, v[beg..wsp]);
      rline := rline + v[beg..wsp];
      var len := |rline|;
      WritingAt(rline, offs, i, before, s);
      var next := SkipSpace(v, wsp);
      SplitGap(s, v, wsp, next);
      if offs[i].first == len && !inhibit {
        // white space at the start of the word is trimmed
      } else {
        offs := EndToken(rline, offs, i, before, s);
        rline := rline + " ";
        len := len + 1;
        if len > MAX_LENGTH {
          ok := false;
          return;
        }
        i := i + 1;
        offadj := offadj + len - lenBefore;
        lenBefore := |rline|;
        s := EndWord(s);
        WritingAt(rline, offs, i, before, s);
      }
      beg := next;
      wsp := FindSpace(v, beg);
      inhibit := false;
    }
    SplitRun(s, v, beg, wsp);
    SplitRun(Put(s, v[beg..]), v, wsp, wsp);
    assert v[wsp..] == "" && v[beg..wsp] == v[beg..];
    WritingMore(rline, offs, i, before, s, v[beg..]);
    rline := rline + v[beg..];
    offadj := offadj + |rline| - lenBefore;
  }

  // ---- one token ----

  // the token at [a, b) is evaluated up to xpos, or not begun
  ghost predicate Reached(line: string, a: nat, b: nat, xpos: nat, st: State, env: map<string, string>, arg: Option<string>, start: State) {
    && a <= b <= |line|
    && (if a <= xpos then
          xpos <= b && Eval(line[a..b], start, env, arg) == Eval(line[xpos..b], st, env, arg)
        else
          st == start)
  }

  lemma {:induction false} EvalPlain(t: string, n: nat, st: State, env: map<string, string>, arg: Option<string>)
    requires n <= |t| && forall k :: 0 <= k < n ==> t[k] != '$'
    ensures Eval(t, st, env, arg) == Eval(t[n..], Put(st, t[..n]), env, arg)
    decreases n
  {
    if n == 0 {
      assert st.cur + "" == st.cur && t[0..] == t;
      assert Put(st, t[..0]) == st;
    } else {
      hide Parse, Value, PutValue, Put;
      var u := t[1..];
      assert u[..n - 1] == t[1..n] && u[n - 1..] == t[n..];
      EvalPlain(u, n - 1, Put(st, [t[0]]), env, arg);
      PutTwice(st, [t[0]], t[1..n]);
      assert [t[0]] + t[1..n] == t[..n];
    }
  }

  // before dollar sign d, the rest of the output so far written
  lemma ReachDollar(line: string, a: nat, b: nat, xpos: nat, d: nat, st: State, env: map<string, string>, arg: Option<string>, start: State)
    requires Reached(line, a, b, xpos, st, env, arg, start) && a <= d < b && xpos <= d
    requires forall k :: xpos <= k < d ==> line[k] != '$'
    ensures var q := if a <= xpos then xpos else a;
      Reached(line, a, b, d, Put(st, line[q..d]), env, arg, start)
  {
    var q := if a <= xpos then xpos else a;
    EvalPlain(line[q..b], d - q, st, env, arg);
    assert line[q..b][..d - q] == line[q..d] && line[q..b][d - q..] == line[d..b];
  }

  lemma ReachDouble(line: string, a: nat, b: nat, d: nat, st: State, env: map<string, string>, arg: Option<string>, start: State)
    requires Reached(line, a, b, d, st, env, arg, start) && a <= d < b && line[d] == '$' && At(line, d + 1) == '$'
    requires b < |line| ==> IsSpace(line[b])
    ensures d + 2 <= b && Reached(line, a, b, d + 2, Put(st, "$"), env, arg, start)
  {
    AtInside(line, d, b, d + 1, '$');
    assert line[d..b][2..] == line[d + 2..b];
  }

  lemma ReachReference(line: string, a: nat, b: nat, d: nat, st: State, env: map<string, string>, arg: Option<string>, start: State)
    requires Reached(line, a, b, d, st, env, arg, start) && a <= d < b && line[d] == '$' && At(line, d + 1) != '$'
    requires b < |line| ==> IsSpace(line[b])
    ensures line[d..b] != ""
    ensures Parse(line[d..b]).Err? ==> Eval(line[a..b], start, env, arg) == Err(Parse(line[d..b]).error)
    ensures Parse(line[d..b]).Ok? ==>
              var ref := Parse(line[d..b]).value;
              var v := Value(ref, env, arg);
              && d + ref.length <= b
              && (v.Err? ==> Eval(line[a..b], start, env, arg) == Err(v.error))
              && (v.Ok? && PutValue(st, ref.split, v.value).Err? ==>
                    Eval(line[a..b], start, env, arg) == Err(PutValue(st, ref.split, v.value).error))
              && (v.Ok? && PutValue(st, ref.split, v.value).Ok? ==>
                    Reached(line, a, b, d + ref.length, PutValue(st, ref.split, v.value).value, env, arg, start))
  {
    var t := line[d..b];
    assert At(t, 1) != '$';
    if Parse(t).Ok? {
      assert t[Parse(t).value.length..] == line[d + Parse(t).value.length..b];
    }
  }

  // the output so far, when copied from xpos up to the next dollar sign
  lemma BeginToken(line: string, rline: string, xpos: nat, d: nat, offs: seq<Span>, i: nat, before: seq<string>, a: nat)
    requires xpos <= a <= d <= |line| && i < |offs| && offs[i].first == a + |rline| - xpos
    requires Spells(rline + line[xpos..d], offs[..i], before, true) && Below(offs[..i], offs[i].first)
    ensures Writing(rline + line[xpos..d], offs, i, before, Put(Start(offs[i].first), line[a..d]))
  {
    assert (rline + line[xpos..d])[offs[i].first..] == line[a..d];
    assert before + [] == before;
  }

  // Substitute the reference at dollar sign d, up to which all is written
  method SubstituteReference(line: string, rline0: string, offs0: seq<Span>, i0: nat, d: nat, offadj0: int, inhibit0: bool,
                             env: map<string, string>, arg: Option<string>, ghost before: seq<string>, ghost a: nat, ghost st: State, ghost start: State)
    returns (error: Option<SubstError>, rline: string, offs: seq<Span>, i: nat, xpos: nat, offadj: int, inhibit: bool, collapse: bool, ghost s: State)
    requires i0 < |offs0| && a <= d < offs0[i0].second <= |line| && line[d] == '$' && At(line, d + 1) != '$'
    requires offs0[i0].second < |line| ==> IsSpace(line[offs0[i0].second])
    requires Writing(rline0, offs0, i0, before, st) && inhibit0 == st.keep && offadj0 == |rline0| - d
    requires Reached(line, a, offs0[i0].second, d, st, env, arg, start)
    ensures error.Some? ==> Eval(line[a..offs0[i0].second], start, env, arg) == Err(error.value)
    ensures error.None? ==>
              && i < |offs| && offs[i].second == offs0[i0].second && offs[i + 1..] == offs0[i0 + 1..]
              && d < xpos <= offs[i].second && Reached(line, a, offs[i].second, xpos, s, env, arg, start)
              && Writing(rline, offs, i, before, s) && inhibit == s.keep && collapse == s.drop && offadj == |rline| - xpos
  {
    hide Spells, Below, Writing, Reached, Eval, Parse, Value, At, SplitInto;
    error := None;
    rline, offs, i, xpos, offadj, inhibit, collapse, s := rline0, offs0, i0, d, offadj0, inhibit0, false, st;
    ReachReference(line, a, offs[i].second, d, st, env, arg, start);
    var read := ReadReference(line, d, offs[i].second);
    if read.Err? {
      error := Some(read.error);
      return;
    }
    var value := Value(read.value, env, arg);
    if value.Err? {
      error := Some(value.error);
      return;
    }
    var lenBefore := |rline|;
    xpos := d + read.value.length;
    offadj := offadj - read.value.length;
    if !read.value.split {
      inhibit := true;
      WritingMore(rline, offs, i, before, st, value.value);
      rline := rline + value.value;
      offadj := offadj + |rline| - lenBefore;
      s := Put(st, value.value);
    } else {
      var ok;
      ok, rline, offs, i, inhibit, offadj := SplitWords(rline, offs, i, inhibit, offadj, value.value, before, st);
      if !ok {
        SplitTooLong(st, value.value);
        error := Some(TooLong);
        return;
      }
      collapse := !inhibit;
      s := SplitInto(st, value.value).value;
    }
    WritingAt(rline, offs, i, before, s);
    WritingKeep(rline, offs, i, before, s, inhibit, collapse);
    s := s.(keep := inhibit, drop := collapse);
    if |rline| > MAX_LENGTH {
      error := Some(TooLong);
      return;
    }
  }

  lemma SplitTooLong(st: State, v: string)
    ensures SplitInto(st, v).Err? ==> SplitInto(st, v) == Err(TooLong)
  {
  }

  // Substitute in the token at [a, b), in which dollar sign d0 comes first
  method SubstituteToken(line: string, rline0: string, offs0: seq<Span>, i0: nat, xpos0: nat, d0: nat, offadj0: int,
                         env: map<string, string>, arg: Option<string>, ghost before: seq<string>, ghost a: nat, ghost b: nat)
    returns (error: Option<SubstError>, rline: string, offs: seq<Span>, i: nat, xpos: nat, dindx: nat, offadj: int, collapse: bool, ghost st: State)
    requires xpos0 <= a <= d0 < b <= |line| && line[d0] == '$' && (b < |line| ==> IsSpace(line[b]))
    requires forall k :: xpos0 <= k < d0 ==> line[k] != '$'
    requires i0 < |offs0| && offs0[i0] == Span(a + offadj0, b) && offadj0 == |rline0| - xpos0
    requires Spells(rline0 + line[xpos0..d0], offs0[..i0], before, true) && Below(offs0[..i0], offs0[i0].first)
    ensures error.Some? ==> Eval(line[a..b], Start(a + offadj0), env, arg) == Err(error.value)
    ensures error.None? ==>
              && Reached(line, a, b, xpos, st, env, arg, Start(a + offadj0)) && a <= xpos
              && Writing(rline, offs, i, before, st) && collapse == st.drop
              && i < |offs| && offs[i].second == b && offs[i + 1..] == offs0[i0 + 1..]
              && offadj == |rline| - xpos
              && b <= dindx && (dindx < |line| || dindx == |line| + 1)
              && (forall k :: xpos <= k < |line| && k < dindx ==> line[k] != '$') && (dindx < |line| ==> line[dindx] == '$')
  {
    hide Spells, Below, Writing, Reached, Eval, Parse, Value, At, SplitInto;
    error := None;
    rline, offs, i, xpos, dindx, offadj, collapse := rline0, offs0, i0, xpos0, d0, offadj0, false;
    var inhibit := false;
    ghost var start := Start(a + offadj0);
    ghost var begun := false;
    st := start;
    NotReached(line, a, b, xpos, env, arg, start);
    while offs[i].second > dindx
      invariant error.None? && i < |offs| && offs[i].second == b && offs[i + 1..] == offs0[i0 + 1..] && xpos <= dindx
      invariant begun ==> a <= xpos && Writing(rline, offs, i, before, st) && inhibit == st.keep && collapse == st.drop
      invariant !begun ==> (rline, offs, i, xpos, dindx, inhibit, collapse) == (rline0, offs0, i0, xpos0, d0, false, false) && st == start
      invariant Reached(line, a, b, xpos, st, env, arg, start) && xpos <= b
      invariant offadj == |rline| - xpos && (dindx < |line| || dindx == |line| + 1)
      invariant (forall k :: xpos <= k < |line| && k < dindx ==> line[k] != '$') && (dindx < |line| ==> line[dindx] == '$')
      invariant dindx < b || begun
      decreases |line| + 1 - dindx
    {
      if begun {
        WritingMore(rline, offs, i, before, st, line[xpos..dindx]);
      } else {
        BeginToken(line, rline, xpos, dindx, offs, i, before, a);
      }
      ReachDollar(line, a, b, xpos, dindx, st, env, arg, start);
      st := Put(st, line[if a <= xpos then xpos else a..dindx]);
      begun := true;
      rline := rline + line[xpos..dindx];
      if At(line, dindx + 1) == '$' {
        ReachDouble(line, a, b, dindx, st, env, arg, start);
        WritingMore(rline, offs, i, before, st, "$");
        st := Put(st, "$");
        rline := rline + "$";
        xpos := dindx + 2;
        offadj := offadj - 1;
      } else {
        error, rline, offs, i, xpos, offadj, inhibit, collapse, st :=
          SubstituteReference(line, rline, offs, i, dindx, offadj, inhibit, env, arg, before, a, st, start);
        if error.Some? {
          return;
        }
      }
      dindx := Find(line, '$', xpos);
    }
  }

  lemma NotReached(line: string, a: nat, b: nat, xpos: nat, env: map<string, string>, arg: Option<string>, start: State)
    requires xpos <= a <= b <= |line|
    ensures Reached(line, a, b, xpos, start, env, arg, start)
  {
  }

  // ---- the whole line ----

  function Min(a: int, b: int): int {
    if a < b then a else b
  }

  // tokens before m have been dealt with; the rest of the line is copied from xpos up to the dollar sign at dindx, if there is one
  ghost predicate Passed(line: string, offsets: seq<Span>, m: nat, rline: string, offs: seq<Span>, i: nat, xpos: nat, dindx: nat, words: seq<string>) {
    var adj := |rline| - xpos;
    && m <= |offsets| && i <= |offs| && offs[i..] == offsets[m..]
    && xpos <= dindx && xpos <= |line| && (dindx < |line| || dindx == |line| + 1)
    && (forall k :: xpos <= k < |line| && k < dindx ==> line[k] != '$') && (dindx < |line| ==> line[dindx] == '$')
    && Spells(rline + line[xpos..Min(dindx, |line|)], offs[..i], words, dindx < |line|)
    && (m < |offsets| ==> Below(offs[..i], offsets[m].first + adj) && xpos <= offsets[m].first)
    && (forall k :: 0 <= k < m ==> offsets[k].second <= dindx)
  }

  // a dollar sign yet to be dealt with is in a token yet to be dealt with
  lemma NextDollar(line: string, offsets: seq<Span>, m: nat, rline: string, offs: seq<Span>, i: nat, xpos: nat, dindx: nat, words: seq<string>)
    requires Tokens(line, offsets) && Passed(line, offsets, m, rline, offs, i, xpos, dindx, words)
    ensures m < |offsets| && dindx < |line| ==> offsets[m].first <= dindx
    ensures m == |offsets| ==> dindx == |line| + 1
  {
    if dindx < |line| {
      var k :| 0 <= k < |offsets| && offsets[k].first <= dindx < offsets[k].second;
    }
  }

  // the words s of token m are spelled, in [.., first, second) last if it is kept
  lemma PassToken(line: string, offsets: seq<Span>, m: nat, rline: string, offs: seq<Span>, i: nat, xpos: nat, dindx: nat, before: seq<string>, st: State, last: Span, offs2: seq<Span>, i2: nat)
    requires Laid(line, offsets) && m < |offsets| && i < |offs| && offs[i + 1..] == offsets[m + 1..]
    requires Writing(rline, offs, i, before, st)
    requires var b := offsets[m].second;
      && xpos <= b <= dindx && (dindx < |line| || dindx == |line| + 1)
      && (forall k :: xpos <= k < |line| && k < dindx ==> line[k] != '$') && (dindx < |line| ==> line[dindx] == '$')
      && last == Span(offs[i].first, b + |rline| - xpos)
    requires if st.drop && last.first == last.second then offs2 == offs[..i] + offs[i + 1..] && i2 == i
             else offs2 == offs[i := last] && i2 == i + 1
    ensures var s := Put(st, line[xpos..offsets[m].second]);
      Passed(line, offsets, m + 1, rline, offs2, i2, xpos, dindx, before + Finish(s))
  {
    var b, lim := offsets[m].second, Min(dindx, |line|);
    var p := rline + line[xpos..lim];
    SpellsOn(rline, line[xpos..lim], offs[..i], before + st.words, dindx < |line|);
    assert p[last.first..last.second] == st.cur + line[xpos..b] by {
      assert p[..last.second] == rline + line[xpos..b];
      assert p[last.first..last.second] == p[..last.second][last.first..];
    }
    assert last.second < |p| ==> p[last.second] == line[b];
    var s := Put(st, line[xpos..b]);
    assert offs2[i2..] == offsets[m + 1..];
    if i2 == i {
      assert before + Finish(s) == before + st.words;
      assert offs2[..i] == offs[..i];
    } else {
      assert before + Finish(s) == before + st.words + [s.cur];
      assert offs2[..i2] == offs[..i] + [last];
    }
  }

  // a token without a dollar sign moves along
  lemma PassPlain(line: string, offsets: seq<Span>, m: nat, rline: string, offs: seq<Span>, i: nat, xpos: nat, dindx: nat, before: seq<string>, offs2: seq<Span>)
    requires Laid(line, offsets) && Passed(line, offsets, m, rline, offs, i, xpos, dindx, before)
    requires m < |offsets| && offsets[m].second <= dindx && i < |offs|
    requires var adj := |rline| - xpos; offs2 == offs[i := Span(offsets[m].first + adj, offsets[m].second + adj)]
    ensures Passed(line, offsets, m + 1, rline, offs2, i + 1, xpos, dindx, before + [line[offsets[m].first..offsets[m].second]])
  {
    var a, b, lim, adj := offsets[m].first, offsets[m].second, Min(dindx, |line|), |rline| - xpos;
    var p := rline + line[xpos..lim];
    assert p[a + adj..b + adj] == line[a..b];
    assert b + adj < |p| ==> p[b + adj] == line[b];
    assert offs2[i + 1..] == offsets[m + 1..];
    assert offs2[..i + 1] == offs[..i] + [Span(a + adj, b + adj)];
  }

  // the words of the tokens before m come first
  ghost predicate Counted(line: string, offsets: seq<Span>, m: nat, adj: int, words: seq<string>, env: map<string, string>, arg: Option<string>) {
    && Laid(line, offsets) && m <= |offsets|
    && EvalTokens(line, offsets, 0, 0, env, arg) == Prepend(words, EvalTokens(line, offsets, m, adj, env, arg))
  }

  lemma CountToken(line: string, offsets: seq<Span>, m: nat, adj: int, words: seq<string>, env: map<string, string>, arg: Option<string>)
    requires Counted(line, offsets, m, adj, words, env, arg) && m < |offsets|
    ensures var a, b := offsets[m].first, offsets[m].second;
      var r := Eval(line[a..b], Start(a + adj), env, arg);
      && (r.Err? ==> EvalTokens(line, offsets, 0, 0, env, arg) == Err(r.error))
      && (r.Ok? ==> Counted(line, offsets, m + 1, r.value.length - b, words + Finish(r.value), env, arg))
  {
    hide Eval, Finish;
    var a, b := offsets[m].first, offsets[m].second;
    if Eval(line[a..b], Start(a + adj), env, arg).Ok? {
      var st := Eval(line[a..b], Start(a + adj), env, arg).value;
      var r := EvalTokens(line, offsets, m + 1, st.length - b, env, arg);
      if r.Ok? {
        assert words + (Finish(st) + r.value) == words + Finish(st) + r.value;
      }
    }
  }

  lemma CountPlain(line: string, offsets: seq<Span>, m: nat, adj: int, words: seq<string>, env: map<string, string>, arg: Option<string>)
    requires Counted(line, offsets, m, adj, words, env, arg) && m < |offsets|
    requires forall k :: offsets[m].first <= k < offsets[m].second ==> line[k] != '$'
    ensures Counted(line, offsets, m + 1, adj, words + [line[offsets[m].first..offsets[m].second]], env, arg)
  {
    var a, b := offsets[m].first, offsets[m].second;
    PlainToken(line[a..b], a + adj, env, arg);
    hide Eval, Finish;
    CountToken(line, offsets, m, adj, words, env, arg);
  }

  lemma EvalRest(t: string, st: State, env: map<string, string>, arg: Option<string>)
    requires '$' !in t
    ensures Eval(t, st, env, arg) == Ok(Put(st, t)) && Put(st, t).length == st.length + |t|
  {
    EvalPlain(t, |t|, st, env, arg);
    assert t[|t|..] == "" && t[..|t|] == t;
  }

  lemma PlainToken(t: string, length: int, env: map<string, string>, arg: Option<string>)
    requires '$' !in t
    ensures var r := Eval(t, Start(length), env, arg);
      r.Ok? && Finish(r.value) == [t] && r.value.length == length + |t|
  {
    EvalRest(t, Start(length), env, arg);
    assert Put(Start(length), t).cur == t;
  }

  lemma CountReached(line: string, offsets: seq<Span>, m: nat, adj: int, words: seq<string>, xpos: nat, st: State, env: map<string, string>, arg: Option<string>)
    requires Counted(line, offsets, m, adj, words, env, arg) && m < |offsets|
    requires var a, b := offsets[m].first, offsets[m].second;
      a <= xpos && Reached(line, a, b, xpos, st, env, arg, Start(a + adj)) && forall k :: xpos <= k < b ==> line[k] != '$'
    ensures var s := Put(st, line[xpos..offsets[m].second]);
      Counted(line, offsets, m + 1, st.length - xpos, words + Finish(s), env, arg)
  {
    hide Eval, Finish, Put;
    EvalRest(line[xpos..offsets[m].second], st, env, arg);
    CountToken(line, offsets, m, adj, words, env, arg);
  }

  lemma StartTokens(line: string, offsets: seq<Span>, dindx: nat, env: map<string, string>, arg: Option<string>)
    requires Tokens(line, offsets) && (dindx < |line| || dindx == |line| + 1)
    requires (forall k :: 0 <= k < |line| && k < dindx ==> line[k] != '$') && (dindx < |line| ==> line[dindx] == '$')
    ensures Passed(line, offsets, 0, "", offsets, 0, 0, dindx, [])
    ensures Counted(line, offsets, 0, 0, [], env, arg)
  {
    var r := EvalTokens(line, offsets, 0, 0, env, arg);
    assert r.Ok? ==> [] + r.value == r.value;
  }

  lemma PassedAt(line: string, offsets: seq<Span>, m: nat, rline: string, offs: seq<Span>, i: nat, xpos: nat, dindx: nat, words: seq<string>)
    requires Tokens(line, offsets) && Passed(line, offsets, m, rline, offs, i, xpos, dindx, words)
    ensures i <= |offs| && xpos <= dindx && xpos <= |line| && (i < |offs| <==> m < |offsets|) && m <= |offsets|
    ensures forall k :: xpos <= k < |line| && k < dindx ==> line[k] != '$'
    ensures i < |offs| ==>
              && offs[i] == offsets[m] && offs[i + 1..] == offsets[m + 1..] && xpos <= offsets[m].first <= offsets[m].second <= |line|
              && (offsets[m].second < |line| ==> IsSpace(line[offsets[m].second]))
              && Below(offs[..i], offsets[m].first + |rline| - xpos)
              && (dindx < |line| ==> line[dindx] == '$' && offsets[m].first <= dindx && Spells(rline + line[xpos..dindx], offs[..i], words, true))
    ensures i == |offs| ==> Spells(rline + line[xpos..], offs, words, false)
  {
    NextDollar(line, offsets, m, rline, offs, i, xpos, dindx, words);
    assert |offs| - i == |offsets| - m;
    if i < |offs| {
      assert offs[i] == offs[i..][0] == offsets[m];
      assert offs[i + 1..] == offs[i..][1..] == offsets[m..][1..];
    } else {
      assert offs[..i] == offs;
      assert line[xpos..Min(dindx, |line|)] == line[xpos..];
    }
  }

  lemma Finished(line: string, offsets: seq<Span>, words: seq<string>, adj: int, env: map<string, string>, arg: Option<string>)
    requires Counted(line, offsets, |offsets|, adj, words, env, arg)
    ensures EvalTokens(line, offsets, 0, 0, env, arg) == Ok(words)
  {
    assert words + [] == words;
  }

  lemma CountPassed(line: string, offsets: seq<Span>, m: nat, adj: int, words: seq<string>, rline: string, offs: seq<Span>, i: nat, xpos: nat, dindx: nat, env: map<string, string>, arg: Option<string>)
    requires Counted(line, offsets, m, adj, words, env, arg) && m < |offsets|
    requires Passed(line, offsets, m, rline, offs, i, xpos, dindx, words) && offsets[m].second <= dindx
    ensures 0 <= offsets[m].first <= offsets[m].second <= |line|
    ensures Counted(line, offsets, m + 1, adj, words + [line[offsets[m].first..offsets[m].second]], env, arg)
  {
    CountPlain(line, offsets, m, adj, words, env, arg);
  }

  // a token in which the next dollar sign is
  method TokenWithDollar(line: string, rline0: string, offs0: seq<Span>, i0: nat, xpos0: nat, d0: nat, offadj0: int,
                         env: map<string, string>, arg: Option<string>, ghost offsets: seq<Span>, ghost m: nat, ghost before: seq<string>)
    returns (error: Option<SubstError>, rline: string, offs: seq<Span>, i: nat, xpos: nat, dindx: nat, offadj: int, ghost words: seq<string>)
    requires Tokens(line, offsets) && Passed(line, offsets, m, rline0, offs0, i0, xpos0, d0, before) && offadj0 == |rline0| - xpos0
    requires Counted(line, offsets, m, offadj0, before, env, arg) && i0 < |offs0| && offs0[i0].second > d0
    ensures error.Some? ==> EvalTokens(line, offsets, 0, 0, env, arg) == Err(error.value)
    ensures error.None? ==>
              && m < |offsets| && xpos <= |line|
              && Passed(line, offsets, m + 1, rline, offs, i, xpos, dindx, words) && offadj == |rline| - xpos
              && Counted(line, offsets, m + 1, offadj, words, env, arg)
  {
    hide Tokens, Spells, Below, Writing, Reached, Passed, Counted, EvalTokens;
    PassedAt(line, offsets, m, rline0, offs0, i0, xpos0, d0, before);
    CountError(line, offsets, m, offadj0, before, env, arg);
    offs, words := offs0[i0 := Span(offs0[i0].first + offadj0, offs0[i0].second)], before;
    var collapse;
    ghost var st;
    error, rline, offs, i, xpos, dindx, offadj, collapse, st :=
      SubstituteToken(line, rline0, offs, i0, xpos0, d0, offadj0, env, arg, before, offsets[m].first, offsets[m].second);
    if error.Some? {
      return;
    }
    WritingAt(rline, offs, i, before, st);
    ReachedIn(line, offsets[m].first, offsets[m].second, xpos, st, env, arg, Start(offsets[m].first + offadj0));
    CountReached(line, offsets, m, offadj0, before, xpos, st, env, arg);
    words := before + Finish(Put(st, line[xpos..offsets[m].second]));
    ghost var offs1, i1 := offs, i;
    ghost var last := Span(offs[i].first, offs[i].second + offadj);
    offs := offs[i := Span(offs[i].first, offs[i].second + offadj)];
    if collapse && offs[i].first == offs[i].second {
      offs := offs[..i] + offs[i + 1..];
    } else {
      i := i + 1;
    }
    LaidOut(line, offsets);
    PassToken(line, offsets, m, rline, offs1, i1, xpos, dindx, before, st, last, offs, i);
  }

  lemma ReachedIn(line: string, a: nat, b: nat, xpos: nat, st: State, env: map<string, string>, arg: Option<string>, start: State)
    requires Reached(line, a, b, xpos, st, env, arg, start) && a <= xpos
    ensures xpos <= b <= |line|
  {
  }

  lemma LaidOut(line: string, offsets: seq<Span>)
    requires Tokens(line, offsets)
    ensures Laid(line, offsets)
  {
  }

  // a token before the next dollar sign moves along with what has been written
  method MoveToken(line: string, rline: string, offs0: seq<Span>, i: nat, xpos: nat, dindx: nat, offadj: int,
                   ghost env: map<string, string>, ghost arg: Option<string>, ghost offsets: seq<Span>, ghost m: nat, ghost before: seq<string>)
    returns (offs: seq<Span>, ghost words: seq<string>)
    requires Tokens(line, offsets) && Passed(line, offsets, m, rline, offs0, i, xpos, dindx, before) && offadj == |rline| - xpos
    requires Counted(line, offsets, m, offadj, before, env, arg) && i < |offs0| && offs0[i].second <= dindx
    ensures m < |offsets| && Passed(line, offsets, m + 1, rline, offs, i + 1, xpos, dindx, words) && |offs| == |offs0|
    ensures Counted(line, offsets, m + 1, offadj, words, env, arg)
  {
    hide Tokens, Spells, Below, Passed, Counted, EvalTokens, Laid;
    PassedAt(line, offsets, m, rline, offs0, i, xpos, dindx, before);
    LaidOut(line, offsets);
    words := before + [line[offsets[m].first..offsets[m].second]];
    CountPassed(line, offsets, m, offadj, before, rline, offs0, i, xpos, dindx, env, arg);
    offs := offs0[i := Span(offs0[i].first + offadj, offs0[i].second + offadj)];
    PassPlain(line, offsets, m, rline, offs0, i, xpos, dindx, before, offs);
  }

  // value_var_subst(): the new line, and where its arguments are
  method Substitute(line: string, offsets: seq<Span>, env: map<string, string>, arg: Option<string>)
    returns (r: Result<(string, seq<Span>), SubstError>)
    requires Tokens(line, offsets)
    ensures '$' !in line ==> r == Ok((line, offsets))
    ensures '$' in line && |line| > MAX_LENGTH ==> r == Err(TooLong)
    ensures '$' in line && |line| <= MAX_LENGTH ==>
              var words := EvalTokens(line, offsets, 0, 0, env, arg);
              && (words.Err? ==> r == Err(words.error))
              && (words.Ok? ==> r.Ok? && Spells(r.value.0, r.value.1, words.value, false))
  {
    hide Tokens, Spells, Below, Writing, Reached, Passed, Counted, EvalTokens;
    var dindx: nat := Find(line, '$', 0);
    if dindx > |line| {
      return Ok((line, offsets));
    }
    if |line| > MAX_LENGTH {
      return Err(TooLong);
    }
    var offs, i: nat, xpos: nat, rline, offadj := offsets, 0, 0, "", 0;
    ghost var m: nat, words := 0, [];
    StartTokens(line, offsets, dindx, env, arg);
    PassedAt(line, offsets, m, rline, offs, i, xpos, dindx, words);
    while i < |offs|
      invariant m <= |offsets| && i <= |offs| && xpos <= |line|
      invariant Passed(line, offsets, m, rline, offs, i, xpos, dindx, words) && offadj == |rline| - xpos
      invariant Counted(line, offsets, m, offadj, words, env, arg)
      decreases |offsets| - m
    {
      PassedAt(line, offsets, m, rline, offs, i, xpos, dindx, words);
      if offs[i].second > dindx {
        var error;
        error, rline, offs, i, xpos, dindx, offadj, words := TokenWithDollar(line, rline, offs, i, xpos, dindx, offadj, env, arg, offsets, m, words);
        if error.Some? {
          return Err(error.value);
        }
      } else {
        offs, words := MoveToken(line, rline, offs, i, xpos, dindx, offadj, env, arg, offsets, m, words);
        i := i + 1;
      }
      m := m + 1;
      PassedAt(line, offsets, m, rline, offs, i, xpos, dindx, words);
      while i < |offs| && offs[i].second < dindx
        invariant m <= |offsets| && i <= |offs|
        invariant Passed(line, offsets, m, rline, offs, i, xpos, dindx, words) && offadj == |rline| - xpos
        invariant Counted(line, offsets, m, offadj, words, env, arg)
        decreases |offsets| - m
      {
        offs, words := MoveToken(line, rline, offs, i, xpos, dindx, offadj, env, arg, offsets, m, words);
        i := i + 1;
        m := m + 1;
        PassedAt(line, offsets, m, rline, offs, i, xpos, dindx, words);
      }
    }
    PassedAt(line, offsets, m, rline, offs, i, xpos, dindx, words);
    Finished(line, offsets, words, offadj, env, arg);
    rline := rline + line[xpos..];
    r := Ok((rline, offs));
  }

  lemma CountError(line: string, offsets: seq<Span>, m: nat, adj: int, words: seq<string>, env: map<string, string>, arg: Option<string>)
    requires Counted(line, offsets, m, adj, words, env, arg) && m < |offsets|
    ensures var a, b := offsets[m].first, offsets[m].second;
      && 0 <= a <= b <= |line|
      && var r := Eval(line[a..b], Start(a + adj), env, arg);
         r.Err? ==> EvalTokens(line, offsets, 0, 0, env, arg) == Err(r.error)
  {
    CountToken(line, offsets, m, adj, words, env, arg);
  }

  // ---- what the result means ----

  ghost function Join(a: Result<seq<string>, SubstError>, b: Result<seq<string>, SubstError>): Result<seq<string>, SubstError> {
    if a.Err? then a else Prepend(a.value, b)
  }

  // the arguments that the tokens from m on stand for, each token on its own
  ghost function FlattenAll(line: string, offsets: seq<Span>, m: nat, env: map<string, string>, arg: Option<string>): Result<seq<string>, SubstError>
    requires Laid(line, offsets) && m <= |offsets|
    decreases |offsets| - m
  {
    if m == |offsets| then Ok([])
    else
      Join(Flatten(Token(line, offsets, m), env, arg), FlattenAll(line, offsets, m + 1, env, arg))
  }

  // Tokens are flattened one by one, whatever comes before them; the first to fail is the one reported
  lemma {:induction false} TokensFlatten(line: string, offsets: seq<Span>, m: nat, adj: int, env: map<string, string>, arg: Option<string>)
    requires Laid(line, offsets) && m <= |offsets|
    ensures var r := EvalTokens(line, offsets, m, adj, env, arg);
      r == FlattenAll(line, offsets, m, env, arg) || r == Err(TooLong)
    decreases |offsets| - m
  {
    if m < |offsets| {
      hide Laid, Eval, Flatten, Finish;
      EvalIsFlatten(Token(line, offsets, m), offsets[m].first + adj, env, arg);
      var r := Eval(Token(line, offsets, m), Start(offsets[m].first + adj), env, arg);
      if r.Ok? {
        TokensFlatten(line, offsets, m + 1, r.value.length - offsets[m].second, env, arg);
      }
    }
  }

  // Without splitting a token stands for exactly one argument
  lemma UnsplitIsOne(t: string, env: map<string, string>, arg: Option<string>)
    requires Expand(t, env, arg).Ok? && !Expand(t, env, arg).value.split
    ensures Flatten(t, env, arg) == Ok([Text(Expand(t, env, arg).value.atoms)])
  {
    var atoms := Expand(t, env, arg).value.atoms;
    NoBreaks(t, env, arg);
    GroupsNoBreak([], atoms, []);
    assert atoms + [] == atoms && [] + atoms == atoms;
    assert Groups(atoms, []) == [atoms];
    assert Words([atoms], false) == [Text(atoms)] + Words([], false) == [Text(atoms)];
  }

  lemma {:induction false} NoBreaks(t: string, env: map<string, string>, arg: Option<string>)
    requires Expand(t, env, arg).Ok? && !Expand(t, env, arg).value.split
    ensures Break !in Expand(t, env, arg).value.atoms
    decreases |t|
  {
    hide Parse, Value, SplitAtoms;
    if t == "" {
    } else if t[0] != '$' {
      NoBreaks(t[1..], env, arg);
    } else if At(t, 1) == '$' {
      NoBreaks(t[2..], env, arg);
    } else {
      NoBreaks(t[Parse(t).value.length..], env, arg);
    }
  }

  // With splitting, an argument is empty only on account of an expansion that is not split
  lemma {:induction false} EmptyWordsKept(g: seq<Atom>, atoms: seq<Atom>)
    requires Keep !in g && Break !in g && Keep !in atoms
    ensures "" !in Words(Groups(g, atoms), true)
    decreases |atoms|
  {
    if atoms == [] {
      NonemptyText(g);
    } else if atoms[0].Break? {
      NonemptyText(g);
      EmptyWordsKept([], atoms[1..]);
      assert Groups(g, atoms)[1..] == Groups([], atoms[1..]);
    } else {
      EmptyWordsKept(g + [atoms[0]], atoms[1..]);
    }
  }

  lemma NonemptyText(g: seq<Atom>)
    requires Keep !in g && Break !in g
    ensures g != [] ==> Text(g) != ""
  {
    if g != [] {
      assert g[|g| - 1] in g && g[|g| - 1].Plain?;
    }
  }

  // every dollar sign doubled
  function Escaped(s: string): string {
    if s == "" then "" else (if s[0] == '$' then "$$" else [s[0]]) + Escaped(s[1..])
  }

  // Doubling dollar signs makes any text stand for itself
  lemma EscapedIsItself(s: string, env: map<string, string>, arg: Option<string>)
    ensures Flatten(Escaped(s), env, arg) == Ok([s])
  {
    ExpandEscaped(s, env, arg);
    UnsplitIsOne(Escaped(s), env, arg);
    TextUnsplit(s);
  }

  lemma {:induction false} ExpandEscaped(s: string, env: map<string, string>, arg: Option<string>)
    ensures Expand(Escaped(s), env, arg) == Ok(Expansion(Unsplit(s), false))
  {
    if s != "" {
      ExpandEscaped(s[1..], env, arg);
      var t := Escaped(s);
      assert t[if s[0] == '$' then 2 else 1..] == Escaped(s[1..]);
      assert [Plain(s[0])] + Unsplit(s[1..]) == Unsplit(s);
    }
  }

  lemma {:induction false} TextUnsplit(s: string)
    ensures Text(Unsplit(s)) == s
    decreases |s|
  {
    if s != "" {
      var n := |s| - 1;
      TextUnsplit(s[..n]);
      assert Unsplit(s)[..n] == Unsplit(s[..n]);
      assert s[..n] + [s[n]] == s;
    }
  }
}

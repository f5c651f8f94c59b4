// Reading of setting values: quoting, escapes, comments and the positions of parts.
module SettingValues {
  import opened Wrappers
  import opened Characters
  import opened References
  import opened Sequences
  import opened Substitution
  import opened TokenSubstitution

  datatype Operation = Assign | Colon | PlusAssign

  datatype ReadError = UnterminatedString | CommentNotSeparated

  // ---- the parts of a value ----

  function Current(cur: Option<string>): string {
    if cur.Some? then cur.value else ""
  }

  function Ended(cur: Option<string>): seq<string> {
    if cur.Some? then [cur.value] else []
  }

  // white space and comments
  function CommentLength(s: string, comment: bool): (n: nat)
    ensures n <= |s|
  {
    if s == "" then 0
    else
      var inComment := s[0] == '#' || (comment && s[0] != '\n');
      if !inComment && !IsSpace(s[0]) then 0 else 1 + CommentLength(s[1..], inComment)
  }

  // The parts that s spells, the first continuing cur, if there is one
  function Parts(s: string, cur: Option<string>): Result<seq<string>, ReadError>
    decreases |s|
  {
    if s == "" then Ok(Ended(cur))
    else if s[0] == '"' then QuotedParts(s[1..], Current(cur))
    else if s[0] == '\\' then
      if |s| == 1 then Err(UnterminatedString) else Parts(s[2..], Some(Current(cur) + [s[1]]))
    else if IsSpace(s[0]) then More(Ended(cur), Parts(s[1 + CommentLength(s[1..], false)..], None))
    else if s[0] == '#' then Err(CommentNotSeparated)
    else Parts(s[1..], Some(Current(cur) + [s[0]]))
  }

  // the same, within a quoted string
  function QuotedParts(s: string, cur: string): Result<seq<string>, ReadError>
    decreases |s|
  {
    if s == "" then Err(UnterminatedString)
    else if s[0] == '"' then Parts(s[1..], Some(cur))
    else if s[0] == '\\' then
      if |s| == 1 then Err(UnterminatedString) else QuotedParts(s[2..], cur + [s[1]])
    else QuotedParts(s[1..], cur + [s[0]])
  }

  function More(parts: seq<string>, r: Result<seq<string>, ReadError>): Result<seq<string>, ReadError> {
    if r.Err? then r else Ok(parts + r.value)
  }

  // each part followed by a space
  function Spaced(parts: seq<string>): string {
    if parts == [] then "" else Spaced(parts[..|parts| - 1]) + parts[|parts| - 1] + " "
  }

  function Joined(parts: seq<string>): string {
    if parts == [] then "" else Spaced(parts[..|parts| - 1]) + parts[|parts| - 1]
  }

  // where the parts are when joined, from position p on
  function Positions(parts: seq<string>, p: nat): (r: seq<Span>)
    ensures |r| == |parts|
  {
    if parts == [] then []
    else
      var before := parts[..|parts| - 1];
      var start := p + |Spaced(before)|;
      Positions(before, p) + [Span(start, start + |parts[|parts| - 1]|)]
  }

  // a backslash at the end of the line would continue it, so an odd number does not occur
  function TrailingBackslashes(s: string): nat {
    if s == "" || s[|s| - 1] != '\\' then 0 else 1 + TrailingBackslashes(s[..|s| - 1])
  }

  predicate EndsComplete(s: string) {
    TrailingBackslashes(s) % 2 == 0
  }

  lemma {:induction false} TrailingTail(s: string, k: nat)
    requires k <= |s|
    ensures var n := TrailingBackslashes(s[k..]);
      if n < |s| - k then TrailingBackslashes(s) == n else TrailingBackslashes(s) == n + TrailingBackslashes(s[..k])
    ensures TrailingBackslashes(s[k..]) <= |s| - k
    decreases |s|
  {
    if k < |s| && s[|s| - 1] == '\\' {
      var t := s[..|s| - 1];
      assert s[k..][..|s| - k - 1] == t[k..] && t[..k] == s[..k];
      TrailingTail(t, k);
    } else if k == |s| {
      assert s[..k] == s && s[k..] == "";
    }
  }

  // What is left to read stays complete after an ordinary character, and after an escaped one
  lemma CompleteAfter(s: string, i: nat)
    requires i < |s| && EndsComplete(s[i..])
    ensures s[i] != '\\' ==> EndsComplete(s[i + 1..])
    ensures s[i] == '\\' ==> i + 1 < |s| && EndsComplete(s[i + 2..])
  {
    var t := s[i..];
    if s[i] != '\\' {
      assert t[1..] == s[i + 1..] && t[..1] == [s[i]];
      assert t[..1][..0] == "";
      TrailingTail(t, 1);
    } else {
      var one := ['\\'];
      assert one[..0] == "" && TrailingBackslashes(one) == 1;
      assert t != one && |t| > 1;
      assert t[2..] == s[i + 2..] && t[..2][..1] == t[..1] && t[..1][..0] == "";
      assert TrailingBackslashes(t[..1]) == 1;
      assert TrailingBackslashes(t[..2]) == if t[1] == '\\' then 2 else 0;
      TrailingTail(t, 2);
    }
  }

  lemma CompleteFrom(s: string, i: nat, j: nat)
    requires i <= j <= |s| && EndsComplete(s[i..]) && (j == |s| || i == j || s[j - 1] != '\\')
    ensures EndsComplete(s[j..])
  {
    if i < j < |s| {
      var t := s[i..];
      assert t[j - i..] == s[j..] && t[..j - i][j - i - 1] == s[j - 1];
      TrailingTail(t, j - i);
    }
  }

  lemma {:induction false} CommentStop(s: string, comment: bool)
    ensures var n := CommentLength(s, comment); 0 < n < |s| ==> IsSpace(s[n - 1])
    ensures CommentLength(s, comment) == 0 < |s| ==> !comment || s[0] == '\n'
  {
    if s != "" {
      CommentStop(s[1..], s[0] == '#' || (comment && s[0] != '\n'));
    }
  }

  lemma MoreMore(a: seq<string>, b: seq<string>, r: Result<seq<string>, ReadError>)
    ensures More(a, More(b, r)) == More(a + b, r)
    ensures More([], r) == r
  {
    if r.Ok? {
      assert a + (b + r.value) == a + b + r.value && [] + r.value == r.value;
    }
  }

  // skip_comment()
  method SkipComment(s: string, i: nat) returns (j: nat)
    requires i <= |s|
    ensures i <= j <= |s| && j - i == CommentLength(s[i..], false)
    ensures j < |s| ==> !IsSpace(s[j]) && s[j] != '#'
  {
    j := i;
    var comment := false;
    assert s[i..] == s[j..];
    while j < |s|
      invariant i <= j <= |s| && CommentLength(s[i..], false) == j - i + CommentLength(s[j..], comment)
    {
      assert s[j..][0] == s[j] && s[j..][1..] == s[j + 1..];
      if s[j] == '#' {
        comment := true;
      } else if s[j] == '\n' {
        comment := false;
      }
      if !comment && !IsSpace(s[j]) {
        return;
      }
      j := j + 1;
    }
  }

  // Read a quoted string, from after the opening quotation mark up to the closing one
  method ReadQuoted(line: string, i: nat, val: string, ghost cur: string) returns (ok: bool, j: nat, read: string)
    requires i <= |line| && EndsComplete(line[i..])
    ensures !ok ==> QuotedParts(line[i..], cur) == Err(UnterminatedString)
    ensures ok ==>
              && i <= j < |line| && line[j] == '"' && EndsComplete(line[j..]) && |read| >= |val| && read[..|val|] == val
              && QuotedParts(line[i..], cur) == Parts(line[j + 1..], Some(cur + read[|val|..]))
  {
    j, read := i, val;
    assert cur + read[|val|..] == cur;
    while j < |line|
      invariant i <= j <= |line| && EndsComplete(line[j..]) && |read| >= |val| && read[..|val|] == val
      invariant QuotedParts(line[i..], cur) == QuotedParts(line[j..], cur + read[|val|..])
    {
      var rest := line[j..];
      assert rest[0] == line[j] && rest[1..] == line[j + 1..];
      if line[j] == '"' {
        break;
      }
      CompleteAfter(line, j);
      if line[j] == '\\' {
        assert rest[2..] == line[j + 2..];
        j := j + 1;
      }
      assert cur + (read + [line[j]])[|val|..] == cur + read[|val|..] + [line[j]];
      read := read + [line[j]];
      j := j + 1;
    }
    ok := j < |line|;
  }

  // what is left of the line continues the parts done and cur
  ghost predicate Reading(line: string, start: nat, i: nat, done: seq<string>, cur: Option<string>) {
    && start <= i <= |line| && EndsComplete(line[i..])
    && Parts(line[start..], None) == More(done, Parts(line[i..], cur))
  }

  lemma ReadMore(line: string, start: nat, i: nat, j: nat, done: seq<string>, cur: Option<string>, next: Option<string>)
    requires Reading(line, start, i, done, cur) && i <= j <= |line| && EndsComplete(line[j..])
    requires Parts(line[i..], cur) == Parts(line[j..], next)
    ensures Reading(line, start, j, done, next)
  {
  }

  lemma ReadChar(line: string, start: nat, i: nat, done: seq<string>, cur: Option<string>)
    requires Reading(line, start, i, done, cur) && i < |line| && line[i] != '"' && line[i] != '#' && !IsSpace(line[i])
    ensures line[i] == '\\' ==> i + 1 < |line| && Reading(line, start, i + 2, done, Some(Current(cur) + [line[i + 1]]))
    ensures line[i] != '\\' ==> Reading(line, start, i + 1, done, Some(Current(cur) + [line[i]]))
  {
    CompleteAfter(line, i);
    var rest := line[i..];
    assert rest[0] == line[i] && rest[1..] == line[i + 1..];
    if line[i] == '\\' {
      assert rest[1] == line[i + 1] && rest[2..] == line[i + 2..];
    }
  }

  lemma SpaceComplete(line: string, i: nat, j: nat)
    requires i < |line| && IsSpace(line[i]) && EndsComplete(line[i..]) && j == i + 1 + CommentLength(line[i + 1..], false)
    ensures EndsComplete(line[j..])
  {
    hide EndsComplete;
    CompleteAfter(line, i);
    CommentStop(line[i + 1..], false);
    assert j > i + 1 ==> line[j - 1] == line[i + 1..][j - i - 2];
    CompleteFrom(line, i + 1, j);
  }

  lemma PartsAtSpace(line: string, i: nat, j: nat, cur: Option<string>)
    requires i < |line| && IsSpace(line[i]) && j == i + 1 + CommentLength(line[i + 1..], false)
    ensures Parts(line[i..], cur) == More(Ended(cur), Parts(line[j..], None))
  {
    hide CommentLength;
    var rest := line[i..];
    assert rest[1..] == line[i + 1..];
    assert rest[1 + CommentLength(rest[1..], false)..] == line[j..];
  }

  lemma ReadSpace(line: string, start: nat, i: nat, j: nat, done: seq<string>, cur: Option<string>)
    requires Reading(line, start, i, done, cur) && i < |line| && IsSpace(line[i])
    requires j == i + 1 + CommentLength(line[i + 1..], false)
    ensures Reading(line, start, j, done + Ended(cur), None)
  {
    hide Parts, EndsComplete, CommentLength, More;
    SpaceComplete(line, i, j);
    PartsAtSpace(line, i, j, cur);
    MoreMore(done, Ended(cur), Parts(line[j..], None));
  }

  lemma CommentAtSpace(line: string, i: nat)
    requires i < |line| && IsSpace(line[i])
    ensures CommentLength(line[i..], false) == 1 + CommentLength(line[i + 1..], false)
  {
    assert line[i..][1..] == line[i + 1..];
  }

  lemma SpacedMore(done: seq<string>, w: string, p: nat)
    ensures Spaced(done + [w]) == Spaced(done) + w + " " && Joined(done + [w]) == Spaced(done) + w
    ensures Positions(done + [w], p) == Positions(done, p) + [Span(p + |Spaced(done)|, p + |Spaced(done)| + |w|)]
  {
    assert (done + [w])[..|done|] == done;
  }

  // the parts done, and what there is of the next
  ghost function Body(done: seq<string>, cur: Option<string>): string {
    Spaced(done) + Current(cur)
  }

  lemma BodyMore(base: string, done: seq<string>, cur: Option<string>, v: string)
    ensures base + Body(done, cur) + v == base + Body(done, Some(Current(cur) + v))
  {
    assert Spaced(done) + Current(cur) + v == Spaced(done) + (Current(cur) + v);
    assert base + Body(done, cur) + v == base + (Body(done, cur) + v);
  }

  lemma BodyEnd(base: string, done: seq<string>, cur: string)
    ensures base + Body(done, Some(cur)) == base + Joined(done + [cur])
    ensures base + Body(done, Some(cur)) + " " == base + Body(done + [cur], None)
  {
    SpacedMore(done, cur, 0);
    assert Body(done + [cur], None) == Body(done, Some(cur)) + " ";
  }

  // the value and positions so far, after base and head
  ghost predicate Filled(base: string, head: seq<Span>, val: string, parts: seq<Span>, done: seq<string>, cur: Option<string>, newPart: bool, partStart: int, record: bool) {
    && val == base + Body(done, cur)
    && (if record then
          newPart == cur.None? && parts == head + Positions(done, |base|) && (cur.Some? ==> partStart == |base| + |Spaced(done)|)
        else
          parts == head)
  }

  lemma Fill(base: string, head: seq<Span>, val: string, parts: seq<Span>, done: seq<string>, cur: Option<string>, newPart: bool, partStart: int, record: bool, v: string)
    requires Filled(base, head, val, parts, done, cur, newPart, partStart, record)
    ensures Filled(base, head, val + v, parts, done, Some(Current(cur) + v), false, if newPart then |val| else partStart, record)
  {
    BodyMore(base, done, cur, v);
  }

  // a part ends; the value goes on after a space, if at all
  lemma FillEnd(base: string, head: seq<Span>, val: string, parts: seq<Span>, parts2: seq<Span>, done: seq<string>, cur: Option<string>, newPart: bool, newPart2: bool, partStart: int, record: bool)
    requires Filled(base, head, val, parts, done, cur, newPart, partStart, record) && cur.Some?
    requires if record then parts2 == parts + [Span(partStart, |val|)] && newPart2 else parts2 == parts
    ensures Filled(base, head, val + " ", parts2, done + [cur.value], None, newPart2, partStart, record)
    ensures val == base + Joined(done + [cur.value]) && parts2 == if record then head + Positions(done + [cur.value], |base|) else head
  {
    hide Spaced, Joined, Positions, Body;
    BodyEnd(base, done, cur.value);
    if record {
      PositionsEnd(head, done, cur.value, |base|, |val|);
    }
  }

  lemma PositionsEnd(head: seq<Span>, done: seq<string>, w: string, p: nat, end: int)
    requires end == p + |Body(done, Some(w))|
    ensures head + Positions(done, p) + [Span(p + |Spaced(done)|, end)] == head + Positions(done + [w], p)
  {
    SpacedMore(done, w, p);
    Assoc(head, Positions(done, p), [Span(p + |Spaced(done)|, end)]);
    hide Spaced, Positions;
  }

  lemma FillAt(base: string, head: seq<Span>, val: string, parts: seq<Span>, done: seq<string>, cur: Option<string>, newPart: bool, partStart: int, record: bool)
    requires Filled(base, head, val, parts, done, cur, newPart, partStart, record)
    ensures record ==> newPart == cur.None?
    ensures done == [] && cur.None? ==> val == base + Joined([]) && parts == if record then head + Positions([], |base|) else head
  {
  }

  lemma QuoteHere(line: string, start: nat, i: nat, done: seq<string>, cur: Option<string>)
    requires Reading(line, start, i, done, cur) && i < |line| && line[i] == '"'
    ensures EndsComplete(line[i + 1..]) && Parts(line[i..], cur) == QuotedParts(line[i + 1..], Current(cur))
    ensures QuotedParts(line[i + 1..], Current(cur)) == Err(UnterminatedString) ==> Parts(line[start..], None) == Err(UnterminatedString)
  {
    CompleteAfter(line, i);
    assert line[i..][1..] == line[i + 1..];
  }

  lemma HashHere(line: string, start: nat, i: nat, done: seq<string>, cur: Option<string>)
    requires Reading(line, start, i, done, cur) && i < |line| && line[i] == '#'
    ensures Parts(line[start..], None) == Err(CommentNotSeparated)
  {
    assert line[i..][0] == '#';
  }

  lemma ReadAll(line: string, start: nat, done: seq<string>, cur: Option<string>)
    requires Reading(line, start, |line|, done, cur)
    ensures Parts(line[start..], None) == Ok(done + Ended(cur))
  {
    assert line[|line|..] == "";
  }

  // a quoted string, an escaped character or an ordinary one
  method ReadPiece(line: string, ghost start: nat, i0: nat, val0: string, newPart0: bool, partStart0: int,
                   ghost base: string, ghost head: seq<Span>, ghost parts: seq<Span>, ghost done: seq<string>, ghost cur0: Option<string>, ghost record: bool)
    returns (ok: bool, i: nat, val: string, newPart: bool, partStart: int, ghost cur: Option<string>)
    requires Reading(line, start, i0, done, cur0) && Filled(base, head, val0, parts, done, cur0, newPart0, partStart0, record)
    requires i0 < |line| && line[i0] != '#' && !IsSpace(line[i0])
    ensures !ok ==> Parts(line[start..], None) == Err(UnterminatedString)
    ensures ok ==>
              && i0 < i <= |line| && cur.Some?
              && Reading(line, start, i, done, cur) && Filled(base, head, val, parts, done, cur, newPart, partStart, record)
  {
    hide Parts, QuotedParts, Reading, Filled, EndsComplete;
    ok, i, val, newPart, partStart, cur := true, i0, val0, false, if newPart0 then |val0| else partStart0, cur0;
    var c := line[i];
    if c == '"' {
      QuoteHere(line, start, i, done, cur);
      var j;
      ok, j, val := ReadQuoted(line, i + 1, val, Current(cur));
      if !ok {
        return;
      }
      CompleteAfter(line, j);
      ghost var read := val[|val0|..];
      ReadMore(line, start, i, j + 1, done, cur, Some(Current(cur) + read));
      Fill(base, head, val0, parts, done, cur0, newPart0, partStart0, record, read);
      assert val == val0 + read;
      cur := Some(Current(cur) + read);
      i := j;
    } else {
      ReadChar(line, start, i, done, cur);
      if c == '\\' {
        i := i + 1;
      }
      Fill(base, head, val0, parts, done, cur0, newPart0, partStart0, record, [line[i]]);
      val := val + [line[i]];
      cur := Some(Current(cur) + [line[i]]);
    }
    i := i + 1;
  }

  // parts that are added behind base, and their positions behind head
  function ValueOf(parts: Result<seq<string>, ReadError>, base: string, head: seq<Span>, record: bool): Result<(string, seq<Span>), ReadError> {
    match parts
    case Err(e) => Err(e)
    case Ok(words) => Ok((base + Joined(words), if record then head + Positions(words, |base|) else head))
  }

  // read the parts from start on, and add them to the value and the positions
  method ReadParts(line: string, start: nat, base: string, head: seq<Span>, record: bool) returns (r: Result<(string, seq<Span>), ReadError>)
    requires start <= |line| && EndsComplete(line[start..]) && (start < |line| ==> !IsSpace(line[start]))
    ensures r == ValueOf(Parts(line[start..], None), base, head, record)
  {
    var i, val, parts := start, base, head;
    var newPart, partStart := true, 0;
    ghost var done: seq<string>, cur: Option<string> := [], None;
    MoreMore([], [], Parts(line[i..], None));
    assert Filled(base, head, val, parts, done, cur, newPart, partStart, record);
    assert Reading(line, start, i, done, cur);
    hide Parts, QuotedParts, Reading, Filled, Positions, Spaced, Joined, EndsComplete, CommentLength;
    while i < |line|
      invariant Reading(line, start, i, done, cur) && i <= |line|
      invariant Filled(base, head, val, parts, done, cur, newPart, partStart, record)
      invariant cur.None? ==> if i < |line| then !IsSpace(line[i]) else done == []
      decreases |line| - i
    {
      var c := line[i];
      if IsSpace(c) {
        ghost var parts1, newPart1 := parts, newPart;
        FillAt(base, head, val, parts, done, cur, newPart, partStart, record);
        if !newPart && record {
          parts := parts + [Span(partStart, |val|)];
          newPart := true;
        }
        FillEnd(base, head, val, parts1, parts, done, cur, newPart1, newPart, partStart, record);
        var j := SkipComment(line, i);
        CommentAtSpace(line, i);
        ReadSpace(line, start, i, j, done, cur);
        done, cur := done + Ended(cur), None;
        i := j;
        if i == |line| {
          ReadAll(line, start, done, cur);
          assert done + [] == done;
          return Ok((val, parts));
        }
        val := val + " ";
      } else if c == '#' {
        HashHere(line, start, i, done, cur);
        return Err(CommentNotSeparated);
      } else {
        var ok;
        ok, i, val, newPart, partStart, cur := ReadPiece(line, start, i, val, newPart, partStart, base, head, parts, done, cur, record);
        if !ok {
          return Err(UnterminatedString);
        }
      }
    }
    ReadAll(line, start, done, cur);
    FillAt(base, head, val, parts, done, cur, newPart, partStart, record);
    ghost var parts1, newPart1 := parts, newPart;
    if !newPart && record {
      parts := parts + [Span(partStart, |val|)];
    }
    assert done + [] == done;
    if cur.Some? {
      FillEnd(base, head, val, parts1, parts, done, cur, newPart1, true, partStart, record);
    }
    r := Ok((val, parts));
  }

  // where += goes on: behind a delimiter, unless the value is empty
  function Extended(val: string, delimiter: char): string {
    if val != "" then val + [delimiter] else ""
  }

  // read_setting_value(): the value and the positions of its parts, which are recorded on demand
  method ReadSettingValue(line: string, i0: nat, operation: Operation, val0: string, parts0: seq<Span>, delimiter: char, record: bool)
    returns (r: Result<(string, seq<Span>), ReadError>)
    requires i0 <= |line| && EndsComplete(line[i0..])
    ensures var base := if operation.PlusAssign? then Extended(val0, delimiter) else "";
      var head := if record && !operation.PlusAssign? then [] else parts0;
      r == ValueOf(Parts(line[i0 + Run(line[i0..], IsSpace)..], None), base, head, record)
  {
    var i := SkipSpace(line, i0);
    RunIs(line[i0..], IsSpace, i - i0);
    CompleteFrom(line, i0, i);
    hide EndsComplete, Joined, Positions, Parts;
    assert line[i0 + Run(line[i0..], IsSpace)..] == line[i..];
    var val, parts := val0, parts0;
    if operation == PlusAssign {
      if val != "" {
        val := val + [delimiter];
      }
    } else {
      val := "";
      if record {
        parts := [];
      }
    }
    r := ReadParts(line, i, val, parts, record);
  }

  // ---- positions, and what may follow: substitution ----

  lemma SpellsAppend(p: string, offs: seq<Span>, words: seq<string>, w: string)
    requires Spells(p, offs, words, true)
    ensures Spells(p + w, offs + [Span(|p|, |p| + |w|)], words + [w], false)
  {
    SpellsOn(p, w, offs, words, false);
    assert (p + w)[|p|..|p| + |w|] == w;
  }

  lemma SpellsGap(p: string, gap: string, offs: seq<Span>, words: seq<string>)
    requires Spells(p, offs, words, false) && gap != "" && IsSpace(gap[0])
    ensures Spells(p + gap, offs, words, true)
  {
    forall k | 0 <= k < |offs|
      ensures (p + gap)[offs[k].first..offs[k].second] == words[k] && offs[k].second < |p + gap| && IsSpace((p + gap)[offs[k].second])
    {
      assert (p + gap)[offs[k].first..offs[k].second] == p[offs[k].first..offs[k].second];
    }
  }

  // one more part after a space
  lemma PartSpells(base: string, offs: seq<Span>, words0: seq<string>, before: seq<string>, w: string)
    requires Spells(base + Spaced(before), offs + Positions(before, |base|), words0 + before, true)
    ensures Spells(base + Joined(before + [w]), offs + Positions(before + [w], |base|), words0 + (before + [w]), false)
  {
    hide Spells, Spaced, Joined, Positions;
    var p, at, words := base + Spaced(before), offs + Positions(before, |base|), words0 + before;
    assert base + Joined(before + [w]) == p + w by {
      SpacedMore(before, w, |base|);
      Assoc(base, Spaced(before), w);
    }
    assert offs + Positions(before + [w], |base|) == at + [Span(|p|, |p| + |w|)] by {
      SpacedMore(before, w, |base|);
      Assoc(offs, Positions(before, |base|), [Span(|p|, |p| + |w|)]);
    }
    assert words0 + (before + [w]) == words + [w] by {
      Assoc(words0, before, [w]);
    }
    SpellsAppend(p, at, words, w);
  }

  lemma {:induction false} SpacedSpells(base: string, offs: seq<Span>, words0: seq<string>, words: seq<string>)
    requires Spells(base, offs, words0, true)
    ensures Spells(base + Spaced(words), offs + Positions(words, |base|), words0 + words, true)
    decreases |words|
  {
    if words == [] {
      assert base + Spaced(words) == base && offs + Positions(words, |base|) == offs && words0 + words == words0;
    } else {
      hide Spells;
      var before, w := words[..|words| - 1], words[|words| - 1];
      assert words == before + [w];
      SpacedSpells(base, offs, words0, before);
      PartSpells(base, offs, words0, before, w);
      SpellsGap(base + Joined(words), " ", offs + Positions(words, |base|), words0 + words);
      assert base + Joined(words) + " " == base + Spaced(words);
    }
  }

  // Parts are where their positions say, after those that were there before
  lemma JoinedSpells(base: string, offs: seq<Span>, words0: seq<string>, words: seq<string>)
    requires Spells(base, offs, words0, true)
    ensures Spells(base + Joined(words), offs + Positions(words, |base|), words0 + words, false)
  {
    if words == [] {
      SpacedSpells(base, offs, words0, words);
      SpellsOn(base + Spaced(words), "", offs + Positions(words, |base|), words0 + words, false);
      assert base + Spaced(words) + "" == base + Joined(words);
    } else {
      var before, w := words[..|words| - 1], words[|words| - 1];
      assert words == before + [w];
      SpacedSpells(base, offs, words0, before);
      PartSpells(base, offs, words0, before, w);
    }
  }

  // += would put its first part where an empty argument already is
  predicate Collides(val: string, parts: seq<Span>, words: seq<string>) {
    val == "" && parts != [] && words != []
  }

  // two parts that are not apart, as all parts of a value should be
  ghost predicate Overlaid(parts: seq<Span>) {
    exists j, k :: 0 <= j < k < |parts| && parts[k].first <= parts[j].second
  }

  // What += adds comes after what there was, which stays where it is, unless an empty argument is overlaid
  lemma AddedSpells(val0: string, parts0: seq<Span>, words0: seq<string>, delimiter: char, words: seq<string>)
    requires Spells(val0, parts0, words0, false) && IsSpace(delimiter)
    ensures var base := Extended(val0, delimiter);
      var val, parts := base + Joined(words), parts0 + Positions(words, |base|);
      if Collides(val0, parts0, words) then Overlaid(parts) else Spells(val, parts, words0 + words, false)
  {
    if val0 != "" {
      SpellsGap(val0, [delimiter], parts0, words0);
      JoinedSpells(Extended(val0, delimiter), parts0, words0, words);
    } else if parts0 == [] {
      JoinedSpells("", parts0, words0, words);
    } else if words == [] {
      assert parts0 + [] == parts0 && words0 + [] == words0 && "" + "" == "";
    } else {
      var parts := parts0 + Positions(words, 0);
      PositionsStart(words, 0);
      assert parts[0].second == 0 && parts[|parts0|].first == 0;
    }
  }

  lemma {:induction false} PositionsStart(words: seq<string>, p: nat)
    requires words != []
    ensures Positions(words, p)[0].first == p
    decreases |words|
  {
    if |words| > 1 {
      PositionsStart(words[..|words| - 1], p);
    }
  }

  // every dollar sign from p on is in a part
  ghost predicate Covered(val: string, parts: seq<Span>, p: nat) {
    forall i :: p <= i < |val| && val[i] == '$' ==> InToken(parts, i)
  }

  lemma {:induction false} JoinedCovered(base: string, words: seq<string>)
    ensures Covered(base + Joined(words), Positions(words, |base|), |base|)
    decreases |words|
  {
    if words != [] {
      var before, w := words[..|words| - 1], words[|words| - 1];
      JoinedCovered(base, before);
      var start := |base| + |Spaced(before)|;
      var p, q := base + Joined(words), base + Joined(before);
      var parts := Positions(words, |base|);
      forall i | |base| <= i < |p| && p[i] == '$' ensures InToken(parts, i) {
        if i >= start {
          assert parts[|words| - 1].first <= i < parts[|words| - 1].second;
        } else {
          assert Spaced(before) == Joined(before) + " ";
          assert p[i] == (base + Spaced(before))[i];
          assert i < |q| && q[i] == '$';
          var k :| 0 <= k < |before| && Positions(before, |base|)[k].first <= i < Positions(before, |base|)[k].second;
          assert parts[k] == Positions(before, |base|)[k];
        }
      }
    }
  }

  // A value that has been read is as substitution requires it
  lemma ReadIsTokens(words: seq<string>)
    ensures Tokens(Joined(words), Positions(words, 0))
  {
    hide Joined, Positions, Spells;
    EmptySpells();
    JoinedSpells("", [], [], words);
    JoinedCovered("", words);
    Neutral(Joined(words));
    Neutral(Positions(words, 0));
    Neutral(words);
    SpellsLaid(Joined(words), Positions(words, 0), words);
  }

  // Adding to a value keeps it as substitution requires it, exactly if no empty argument is overlaid
  lemma AddedIsTokens(val0: string, parts0: seq<Span>, words0: seq<string>, delimiter: char, words: seq<string>)
    requires Tokens(val0, parts0) && Spells(val0, parts0, words0, false) && IsSpace(delimiter) && delimiter != '$'
    ensures var base := Extended(val0, delimiter);
      Tokens(base + Joined(words), parts0 + Positions(words, |base|)) <==> !Collides(val0, parts0, words)
  {
    var base := Extended(val0, delimiter);
    var val, parts, added := base + Joined(words), parts0 + Positions(words, |base|), Positions(words, |base|);
    AddedSpells(val0, parts0, words0, delimiter, words);
    JoinedCovered(base, words);
    if !Collides(val0, parts0, words) {
      SpellsLaid(val, parts, words0 + words);
      forall i | 0 <= i < |val| && val[i] == '$' ensures InToken(parts, i) {
        if i < |val0| {
          assert val0[i] == '$';
          var k :| 0 <= k < |parts0| && parts0[k].first <= i < parts0[k].second;
          assert parts[k] == parts0[k];
        } else {
          var k :| 0 <= k < |added| && added[k].first <= i < added[k].second;
          assert parts[|parts0| + k] == added[k];
        }
      }
    }
  }

  function Concat(lines: seq<seq<string>>): seq<string> {
    if lines == [] then [] else Concat(lines[..|lines| - 1]) + lines[|lines| - 1]
  }

  // the value and positions after a line with = and lines with +=, of which each spells the parts given
  function Accumulated(lines: seq<seq<string>>): (string, seq<Span>) {
    if lines == [] then ("", [])
    else
      var (val, parts) := Accumulated(lines[..|lines| - 1]);
      var base := Extended(val, ' ');
      (base + Joined(lines[|lines| - 1]), parts + Positions(lines[|lines| - 1], |base|))
  }

  // What one line after another makes of a setting
  lemma ReadAccumulates(lines: seq<seq<string>>, words: seq<string>)
    ensures ValueOf(Ok(words), "", [], true) == Ok(Accumulated([words]))
    ensures var (val, parts) := Accumulated(lines);
      ValueOf(Ok(words), Extended(val, ' '), parts, true) == Ok(Accumulated(lines + [words]))
  {
    assert [words][..0] == [] && (lines + [words])[..|lines|] == lines;
    Neutral(Positions(words, 0));
    Neutral(Joined(words));
  }

  // a line adds something when all there is so far is one empty argument
  ghost predicate EmptyArgumentExtended(lines: seq<seq<string>>) {
    exists k :: 0 <= k < |lines| && Concat(lines[..k]) == [""] && lines[k] != []
  }

  lemma ExtendedNow(lines: seq<seq<string>>)
    requires lines != []
    ensures var before := lines[..|lines| - 1];
      EmptyArgumentExtended(lines) <==> EmptyArgumentExtended(before) || (Concat(before) == [""] && lines[|lines| - 1] != [])
  {
    var before := lines[..|lines| - 1];
    forall k | 0 <= k < |before| ensures lines[..k] == before[..k] && lines[k] == before[k] {
    }
  }

  lemma {:induction false} NothingYet(lines: seq<seq<string>>)
    requires Concat(lines) == [] || Concat(lines) == [""]
    ensures Accumulated(lines).0 == ""
    decreases |lines|
  {
    if lines != [] {
      var before, last := lines[..|lines| - 1], lines[|lines| - 1];
      assert |Concat(before)| + |last| == |Concat(lines)|;
      if last == [] {
        Neutral(Concat(before));
      } else {
        assert Concat(before) == [] && last == Concat(lines);
      }
      NothingYet(before);
    }
  }

  // After any number of lines the value is as substitution requires it, its parts being those of the lines one after
  // the other, exactly if no line extends a value that is one empty argument
  lemma {:induction false} AccumulatedTokens(lines: seq<seq<string>>)
    ensures var (val, parts) := Accumulated(lines);
      && (!EmptyArgumentExtended(lines) ==> Tokens(val, parts) && Spells(val, parts, Concat(lines), false))
      && (EmptyArgumentExtended(lines) ==> Overlaid(parts) && !Tokens(val, parts))
    decreases |lines|
  {
    if lines != [] {
      var before, last := lines[..|lines| - 1], lines[|lines| - 1];
      AccumulatedTokens(before);
      ExtendedNow(lines);
      var (val0, parts0) := Accumulated(before);
      var added := Positions(last, |Extended(val0, ' ')|);
      if EmptyArgumentExtended(before) {
        OverlaidStays(parts0, added);
      } else {
        OneEmpty(val0, parts0, Concat(before));
        if Concat(before) == [""] {
          NothingYet(before);
        }
        AddedSpells(val0, parts0, Concat(before), ' ', last);
        AddedIsTokens(val0, parts0, Concat(before), ' ', last);
      }
    }
  }

  lemma OverlaidStays(parts: seq<Span>, more: seq<Span>)
    requires Overlaid(parts)
    ensures Overlaid(parts + more)
  {
    var j, k :| 0 <= j < k < |parts| && parts[k].first <= parts[j].second;
    assert (parts + more)[j] == parts[j] && (parts + more)[k] == parts[k];
  }

  // the only arguments that the empty text spells are none, and an empty one
  lemma OneEmpty(val: string, parts: seq<Span>, words: seq<string>)
    requires Spells(val, parts, words, false)
    ensures val == "" ==> words == [] || words == [""]
  {
    if val == "" && words != [] {
      var last := parts[|words| - 1];
      assert words[0] == "" && last.first == parts[0].second;
    }
  }

  // `command = ""` and then `command += foo`: the second argument is put where the first one is
  lemma EmptyArgumentExample()
    ensures Accumulated([[""], ["foo"]]) == ("foo", [Span(0, 0), Span(0, 3)])
    ensures EmptyArgumentExtended([[""], ["foo"]]) && !Tokens("foo", [Span(0, 0), Span(0, 3)])
  {
    var first, both := [[""]], [[""], ["foo"]];
    assert both[..1] == first && first[..0] == [];
    assert [""][..0] == [] && Positions([""], 0) == [Span(0, 0)] && Joined([""]) == "";
    assert ["foo"][..0] == [] && Positions(["foo"], 0) == [Span(0, 3)] && Joined(["foo"]) == "foo";
    assert Accumulated(both[..1]) == Accumulated(first);
    assert Concat(first) == [""];
    assert Accumulated(first) == ("", [Span(0, 0)]);
    assert [Span(0, 0)] + [Span(0, 3)] == [Span(0, 0), Span(0, 3)] && "" + "foo" == "foo";
    assert Concat(both[..1]) == [""] && both[1] != [];
    AccumulatedTokens(both);
  }

  // the arguments that words stand for, each on its own
  ghost function FlattenWords(words: seq<string>, env: map<string, string>, arg: Option<string>): Result<seq<string>, SubstError> {
    if words == [] then Ok([]) else Join(Flatten(words[0], env, arg), FlattenWords(words[1..], env, arg))
  }

  lemma {:induction false} SpelledFlatten(val: string, parts: seq<Span>, words: seq<string>, m: nat, env: map<string, string>, arg: Option<string>)
    requires Spells(val, parts, words, false) && Laid(val, parts) && m <= |words|
    ensures FlattenAll(val, parts, m, env, arg) == FlattenWords(words[m..], env, arg)
    decreases |words| - m
  {
    if m < |words| {
      SpelledFlatten(val, parts, words, m + 1, env, arg);
      assert words[m..][1..] == words[m + 1..];
    }
  }

  // Reading, adding and substituting together: each part of each line stands for its own arguments
  lemma LinesEvaluate(lines: seq<seq<string>>, env: map<string, string>, arg: Option<string>)
    requires !EmptyArgumentExtended(lines)
    ensures var (val, parts) := Accumulated(lines);
      && Tokens(val, parts)
      && var r := EvalTokens(val, parts, 0, 0, env, arg);
         r == FlattenWords(Concat(lines), env, arg) || r == Err(TooLong)
  {
    var (val, parts) := Accumulated(lines);
    AccumulatedTokens(lines);
    TokensFlatten(val, parts, 0, 0, env, arg);
    SpelledFlatten(val, parts, Concat(lines), 0, env, arg);
    assert Concat(lines)[0..] == Concat(lines);
  }

  lemma EmptySpells()
    ensures Spells("", [], [], true)
  {
  }

  lemma SpellsLaid(p: string, offs: seq<Span>, words: seq<string>)
    requires Spells(p, offs, words, false)
    ensures Laid(p, offs)
  {
  }

  // ---- quoting ----

  function EscapedInQuotes(s: string): string {
    if s == "" then "" else (if s[0] == '"' || s[0] == '\\' then ['\\', s[0]] else [s[0]]) + EscapedInQuotes(s[1..])
  }

  function Quoted(s: string): string {
    ['"'] + EscapedInQuotes(s) + ['"']
  }

  function QuotedLine(args: seq<string>): string {
    if args == [] then "" else if |args| == 1 then Quoted(args[0]) else Quoted(args[0]) + " " + QuotedLine(args[1..])
  }

  lemma {:induction false} QuotedReads(s: string, rest: string, cur: string)
    ensures QuotedParts(EscapedInQuotes(s) + ['"'] + rest, cur) == Parts(rest, Some(cur + s))
    decreases |s|
  {
    var t := EscapedInQuotes(s) + ['"'] + rest;
    if s == "" {
      assert t[1..] == rest && cur + s == cur;
    } else {
      var n := if s[0] == '"' || s[0] == '\\' then 2 else 1;
      assert t[n..] == EscapedInQuotes(s[1..]) + ['"'] + rest;
      QuotedReads(s[1..], rest, cur + [s[0]]);
      assert cur + [s[0]] + s[1..] == cur + s;
    }
  }

  lemma QuotedPart(a: string, rest: string)
    ensures Parts(Quoted(a) + rest, None) == Parts(rest, Some(a))
  {
    var line := Quoted(a) + rest;
    assert line[1..] == EscapedInQuotes(a) + ['"'] + rest;
    QuotedReads(a, rest, "");
    assert "" + a == a;
  }

  lemma SpaceBeforeQuote(more: string, a: string)
    requires more != "" && more[0] == '"'
    ensures Parts(" " + more, Some(a)) == More([a], Parts(more, None))
  {
    var rest := " " + more;
    assert rest[1..] == more && more[0..] == more && CommentLength(more, false) == 0;
  }

  lemma {:induction false} QuotedLineShape(args: seq<string>)
    requires args != []
    ensures var line := QuotedLine(args); line != "" && line[0] == '"' && line[|line| - 1] == '"'
  {
    if |args| > 1 {
      QuotedLineShape(args[1..]);
    }
  }

  // Any arguments, quoted, are read back as they are
  lemma {:induction false} QuotedLineReads(args: seq<string>)
    ensures Parts(QuotedLine(args), None) == Ok(args)
    ensures Run(QuotedLine(args), IsSpace) == 0 && EndsComplete(QuotedLine(args))
  {
    if args != [] {
      QuotedLineShape(args);
      if |args| == 1 {
        QuotedPart(args[0], "");
        Neutral(Quoted(args[0]));
        assert args == [args[0]];
      } else {
        QuotedLineShape(args[1..]);
        QuotedLineReads(args[1..]);
        QuotedLineStep(args[0], args[1..]);
        assert args == [args[0]] + args[1..];
      }
    }
  }

  lemma QuotedLineStep(a: string, args: seq<string>)
    requires Parts(QuotedLine(args), None) == Ok(args) && QuotedLine(args) != "" && QuotedLine(args)[0] == '"'
    ensures Parts(Quoted(a) + " " + QuotedLine(args), None) == Ok([a] + args)
  {
    hide Parts, QuotedLine, Quoted;
    QuotedPart(a, " " + QuotedLine(args));
    SpaceBeforeQuote(QuotedLine(args), a);
    Assoc(Quoted(a), " ", QuotedLine(args));
  }

  // So is += of quoted arguments to a value, with the earlier parts unchanged, exactly if no empty one is overlaid
  lemma QuotedArgumentsAppend(val0: string, parts0: seq<Span>, words0: seq<string>, args: seq<string>)
    requires Spells(val0, parts0, words0, false)
    ensures var base := Extended(val0, ' ');
      && Parts(QuotedLine(args), None).Ok?
      && var words := Parts(QuotedLine(args), None).value;
         Spells(base + Joined(words), parts0 + Positions(words, |base|), words0 + args, false) <==> !Collides(val0, parts0, args)
  {
    QuotedLineReads(args);
    AddedSpells(val0, parts0, words0, ' ', args);
  }
}

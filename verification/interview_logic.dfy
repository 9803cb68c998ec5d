/**
 * The pure text helpers of the interview logic: line breaking after
 * sentence terminators, rendering the chat log as a transcript, and filling
 * the rules template with the candidate's profile.
 */
module InterviewLogic {
  import opened Wrappers

  /** A lookup of a key a dictionary does not hold (Python's KeyError). */
  datatype KeyError = KeyError(key: string)

  // ---------------------------------------------------------------------
  // Line breaking after sentence terminators
  // ---------------------------------------------------------------------

  /** The three sentence-final marks after which a line break is inserted. */
  predicate IsTerminator(c: char) {
    c == '。' || c == '？' || c == '！'
  }

  /** How many times `c` occurs in `s` (Python's `s.count(c)` for one character). */
  function Occurrences(s: string, c: char): nat {
    if s == [] then 0 else (if s[0] == c then 1 else 0) + Occurrences(s[1..], c)
  }

  /** How many sentence terminators `s` holds. */
  function TerminatorCount(s: string): nat {
    if s == [] then 0 else (if IsTerminator(s[0]) then 1 else 0) + TerminatorCount(s[1..])
  }

  /** Counting occurrences distributes over concatenation. */
  lemma {:induction false} OccurrencesAppend(a: string, b: string, c: char)
    ensures Occurrences(a + b, c) == Occurrences(a, c) + Occurrences(b, c)
  {
    if a == [] {
      assert a + b == b;
    } else {
      assert (a + b)[1..] == a[1..] + b;
      OccurrencesAppend(a[1..], b, c);
    }
  }

  /** The terminator count is the sum of the counts of the three marks. */
  lemma {:induction false} TerminatorCountByMark(s: string)
    ensures TerminatorCount(s) == Occurrences(s, '。') + Occurrences(s, '？') + Occurrences(s, '！')
  {
    if s != [] {
      TerminatorCountByMark(s[1..]);
    }
  }

  /**
   * Inserts "\n" at every position that directly follows a terminator,
   * including the end of the text: the regular-expression substitution of
   * an empty look-behind match for one of the three marks.
   */
  function AddNewlinesByPeriod(text: string): (r: string)
    ensures |r| == |text| + TerminatorCount(text)
  {
    if text == [] then []
    else (if IsTerminator(text[0]) then [text[0], '\n'] else [text[0]]) + AddNewlinesByPeriod(text[1..])
  }

  /**
   * The result holds every character as often as the text does, except
   * "\n", which it holds once more per terminator.
   */
  lemma {:induction false} AddNewlinesCounts(text: string, c: char)
    ensures Occurrences(AddNewlinesByPeriod(text), c) ==
            Occurrences(text, c) + (if c == '\n' then TerminatorCount(text) else 0)
  {
    if text != [] {
      var head := if IsTerminator(text[0]) then [text[0], '\n'] else [text[0]];
      AddNewlinesCounts(text[1..], c);
      OccurrencesAppend(head, AddNewlinesByPeriod(text[1..]), c);
      if IsTerminator(text[0]) {
        assert head[1..][1..] == [];
      } else {
        assert head[1..] == [];
      }
    }
  }

  /**
   * Removes each "\n" that directly follows a terminator: the inverse of
   * AddNewlinesByPeriod.
   */
  function RemoveInsertedNewlines(s: string): string {
    if s == [] then []
    else if IsTerminator(s[0]) && |s| >= 2 && s[1] == '\n' then [s[0]] + RemoveInsertedNewlines(s[2..])
    else [s[0]] + RemoveInsertedNewlines(s[1..])
  }

  /** Deleting the inserted line breaks gives back the original text. */
  lemma {:induction false} RemoveInsertedNewlinesInverse(text: string)
    ensures RemoveInsertedNewlines(AddNewlinesByPeriod(text)) == text
  {
    if text != [] {
      var r := AddNewlinesByPeriod(text);
      var rest := AddNewlinesByPeriod(text[1..]);
      RemoveInsertedNewlinesInverse(text[1..]);
      if IsTerminator(text[0]) {
        assert r == [text[0], '\n'] + rest;
        assert r[2..] == rest;
      } else {
        assert r == [text[0]] + rest;
        assert r[1..] == rest;
      }
      assert text == [text[0]] + text[1..];
    }
  }

  /** The insertion works character by character: it distributes over concatenation. */
  lemma {:induction false} AddNewlinesAppend(a: string, b: string)
    ensures AddNewlinesByPeriod(a + b) == AddNewlinesByPeriod(a) + AddNewlinesByPeriod(b)
  {
    if a == [] {
      assert a + b == b;
    } else {
      assert (a + b)[0] == a[0];
      assert (a + b)[1..] == a[1..] + b;
      AddNewlinesAppend(a[1..], b);
    }
  }

  /**
   * Where character i of the text lands in the result, and what follows it:
   * exactly one "\n" after a terminator, nothing inserted after any other
   * character.
   */
  lemma AddNewlinesAt(text: string, i: nat)
    requires i < |text|
    ensures var r := AddNewlinesByPeriod(text);
            var p := i + TerminatorCount(text[..i]);
            p < |r| && r[p] == text[i] && r[..p] == AddNewlinesByPeriod(text[..i]) &&
            (IsTerminator(text[i]) ==>
               p + 1 < |r| && r[p + 1] == '\n' && r[p + 2..] == AddNewlinesByPeriod(text[i + 1..])) &&
            (!IsTerminator(text[i]) ==> r[p + 1..] == AddNewlinesByPeriod(text[i + 1..]))
  {
    var pre, post := text[..i], text[i + 1..];
    var rest := [text[i]] + post;
    assert text == pre + rest;
    AddNewlinesAppend(pre, rest);
    var a, b := AddNewlinesByPeriod(pre), AddNewlinesByPeriod(post);
    var head := if IsTerminator(text[i]) then [text[i], '\n'] else [text[i]];
    assert rest[0] == text[i] && rest[1..] == post;
    assert AddNewlinesByPeriod(rest) == head + b;
    var r := a + (head + b);
    assert |a| == i + TerminatorCount(pre);
    assert r[..|a|] == a;
    assert r[|a|..] == head + b;
    if IsTerminator(text[i]) {
      assert r[|a| + 2..] == b;
    } else {
      assert r[|a| + 1..] == b;
    }
  }

  /** Text without any of the three marks, the empty text included, comes back unchanged, and only such text does. */
  lemma {:induction false} AddNewlinesUnchanged(text: string)
    ensures AddNewlinesByPeriod(text) == text <==> TerminatorCount(text) == 0
  {
    if text != [] && TerminatorCount(text) == 0 {
      assert text == [text[0]] + text[1..];
      AddNewlinesUnchanged(text[1..]);
    }
  }

  /** The insertion is not idempotent: re-applying it to text with a terminator breaks the lines again. */
  lemma AddNewlinesNotIdempotent(text: string)
    requires TerminatorCount(text) > 0
    ensures AddNewlinesByPeriod(AddNewlinesByPeriod(text)) != AddNewlinesByPeriod(text)
  {
    AddNewlinesCounts(text, '。');
    AddNewlinesCounts(text, '？');
    AddNewlinesCounts(text, '！');
    TerminatorCountByMark(text);
    TerminatorCountByMark(AddNewlinesByPeriod(text));
  }

  // ---------------------------------------------------------------------
  // Joining lines with "\n" and splitting them again
  // ---------------------------------------------------------------------

  /** Python's `"\n".join(lines)`: a single separator between lines, none after the last. */
  function JoinLines(lines: seq<string>): string {
    if |lines| == 0 then ""
    else if |lines| == 1 then lines[0]
    else lines[0] + "\n" + JoinLines(lines[1..])
  }

  /** Cuts `s` at every "\n"; the inverse of JoinLines on lines that hold no "\n". */
  function SplitLines(s: string): (r: seq<string>)
    ensures |r| >= 1
  {
    if s == [] then [""]
    else if s[0] == '\n' then [""] + SplitLines(s[1..])
    else
      var rest := SplitLines(s[1..]);
      [[s[0]] + rest[0]] + rest[1..]
  }

  /** Splitting a line that holds no "\n" glued to some tail extends the tail's first line. */
  lemma {:induction false} SplitLinesPrefix(x: string, tail: string)
    requires '\n' !in x
    ensures SplitLines(x + tail) == [x + SplitLines(tail)[0]] + SplitLines(tail)[1..]
  {
    if x != [] {
      var t, st := SplitLines(x[1..] + tail), SplitLines(tail);
      assert (x + tail)[0] == x[0] && x[0] != '\n';
      assert (x + tail)[1..] == x[1..] + tail;
      SplitLinesPrefix(x[1..], tail);
      assert t[0] == x[1..] + st[0] && t[1..] == st[1..];
      assert [x[0]] + t[0] == x + st[0];
    } else {
      var s := SplitLines(tail);
      assert x + tail == tail;
      assert x + s[0] == s[0];
      assert s == [s[0]] + s[1..];
    }
  }

  /** Lines that hold no "\n" are recovered exactly from their join: one separator between lines, none at the end. */
  lemma {:induction false} SplitJoinLines(lines: seq<string>)
    requires |lines| >= 1
    requires forall i :: 0 <= i < |lines| ==> '\n' !in lines[i]
    ensures SplitLines(JoinLines(lines)) == lines
  {
    if |lines| == 1 {
      SplitLinesPrefix(lines[0], "");
      assert lines[0] + "" == lines[0];
    } else {
      var rest := JoinLines(lines[1..]);
      SplitJoinLines(lines[1..]);
      assert lines[0] + "\n" + rest == lines[0] + ("\n" + rest);
      SplitLinesPrefix(lines[0], "\n" + rest);
      var tail := "\n" + rest;
      assert tail[0] == '\n' && tail[1..] == rest;
      assert SplitLines(tail) == [""] + lines[1..];
      assert SplitLines(tail)[0] == "" && SplitLines(tail)[1..] == lines[1..];
      assert lines[0] + "" == lines[0];
      assert lines == [lines[0]] + lines[1..];
    }
  }

  /** Joining one more line appends exactly one separator and that line. */
  lemma {:induction false} JoinLinesSnoc(lines: seq<string>, x: string)
    requires |lines| >= 1
    ensures JoinLines(lines + [x]) == JoinLines(lines) + "\n" + x
  {
    if |lines| == 1 {
      assert lines + [x] == [lines[0], x];
    } else {
      assert (lines + [x])[1..] == lines[1..] + [x];
      JoinLinesSnoc(lines[1..], x);
    }
  }

  // ---------------------------------------------------------------------
  // Rendering the chat log
  // ---------------------------------------------------------------------

  /** The role the interviewer's turns carry in the chat log. */
  const Assistant: string := "assistant"
  /** The role the candidate's turns carry in the chat log. */
  const User: string := "user"

  const InterviewerLabel: string := "面接官："
  const CandidateLabel: string := "あなた："

  /**
   * One chat-log entry, a dictionary with the keys "role" and "content";
   * either key may be missing from a malformed entry.
   */
  datatype Message = Message(role: Option<string>, content: Option<string>)

  predicate WellFormed(m: Message) {
    m.role.Some? && m.content.Some?
  }

  /** The key whose lookup fails first on a malformed entry: the role is read before the content. */
  function MissingKey(m: Message): KeyError
    requires !WellFormed(m)
  {
    if m.role.None? then KeyError("role") else KeyError("content")
  }

  /** "assistant" speaks as the interviewer; every other role as the candidate. */
  function SpeakerLabel(role: string): string {
    if role == Assistant then InterviewerLabel else CandidateLabel
  }

  /** The transcript line of each entry, in order; fails on the first malformed entry. */
  function HistoryLines(h: seq<Message>): (r: Result<seq<string>, KeyError>)
    ensures r.Ok? <==> forall i :: 0 <= i < |h| ==> WellFormed(h[i])
    ensures r.Ok? ==> |r.value| == |h|
    ensures r.Ok? ==> forall i :: 0 <= i < |h| ==> r.value[i] == SpeakerLabel(h[i].role.value) + h[i].content.value
  {
    if h == [] then Ok([])
    else if h[0].role.None? then Err(KeyError("role"))
    else if h[0].content.None? then Err(KeyError("content"))
    else
      match HistoryLines(h[1..])
      case Err(e) => Err(e)
      case Ok(rest) => Ok([SpeakerLabel(h[0].role.value) + h[0].content.value] + rest)
  }

  /** The chat log rendered as a transcript, one labelled line per entry. */
  function GetHistoryText(h: seq<Message>): (r: Result<string, KeyError>)
    ensures h == [] ==> r == Ok("")
    ensures |h| == 1 && WellFormed(h[0]) ==> r == Ok(SpeakerLabel(h[0].role.value) + h[0].content.value)
    ensures r.Ok? <==> forall i :: 0 <= i < |h| ==> WellFormed(h[i])
  {
    if h == [] then Ok("")
    else
      match HistoryLines(h)
      case Err(e) => Err(e)
      case Ok(lines) => Ok(JoinLines(lines))
  }

  /** A malformed entry is an error, never a default speaker: the error names the key missing from the first malformed entry. */
  lemma {:induction false} HistoryTextError(h: seq<Message>) returns (i: nat)
    requires GetHistoryText(h).Err?
    ensures i < |h| && !WellFormed(h[i])
    ensures forall j :: 0 <= j < i ==> WellFormed(h[j])
    ensures GetHistoryText(h).error == MissingKey(h[i])
  {
    i := HistoryLinesError(h);
  }

  lemma {:induction false} HistoryLinesError(h: seq<Message>) returns (i: nat)
    requires HistoryLines(h).Err?
    ensures i < |h| && !WellFormed(h[i])
    ensures forall j :: 0 <= j < i ==> WellFormed(h[j])
    ensures HistoryLines(h).error == MissingKey(h[i])
  {
    if !WellFormed(h[0]) {
      i := 0;
    } else {
      var k := HistoryLinesError(h[1..]);
      i := k + 1;
      forall j | 0 <= j < i ensures WellFormed(h[j]) {
        if j > 0 { assert h[j] == h[1..][j - 1]; }
      }
    }
  }

  /**
   * For entries whose content holds no line break, the transcript has one
   * line per entry, in order: the speaker's label followed by the content.
   */
  lemma HistoryTextLines(h: seq<Message>)
    requires h != []
    requires forall i :: 0 <= i < |h| ==> WellFormed(h[i]) && '\n' !in h[i].content.value
    ensures var lines := SplitLines(GetHistoryText(h).value);
            |lines| == |h| &&
            forall i :: 0 <= i < |h| ==> lines[i] == SpeakerLabel(h[i].role.value) + h[i].content.value
  {
    var lines := HistoryLines(h).value;
    forall i | 0 <= i < |lines| ensures '\n' !in lines[i] {
      var speaker := SpeakerLabel(h[i].role.value);
      assert '\n' !in speaker;
      assert lines[i] == speaker + h[i].content.value;
    }
    SplitJoinLines(lines);
  }

  /** Appending an entry to a non-empty log appends one "\n" and that entry's line to the transcript. */
  lemma HistoryTextSnoc(h: seq<Message>, m: Message)
    requires h != [] && WellFormed(m)
    requires forall i :: 0 <= i < |h| ==> WellFormed(h[i])
    ensures GetHistoryText(h + [m]) ==
            Ok(GetHistoryText(h).value + "\n" + SpeakerLabel(m.role.value) + m.content.value)
  {
    var h' := h + [m];
    assert forall i :: 0 <= i < |h'| ==> WellFormed(h'[i]);
    var lines, lines' := HistoryLines(h).value, HistoryLines(h').value;
    var line := SpeakerLabel(m.role.value) + m.content.value;
    assert lines' == lines + [line];
    JoinLinesSnoc(lines, line);
    assert GetHistoryText(h') == Ok(JoinLines(lines'));
    assert GetHistoryText(h) == Ok(JoinLines(lines));
    assert JoinLines(lines) + "\n" + line ==
           JoinLines(lines) + "\n" + SpeakerLabel(m.role.value) + m.content.value;
  }

  // ---------------------------------------------------------------------
  // Filling the rules template with the profile
  // ---------------------------------------------------------------------

  /** The candidate's profile: seven free-text fields. */
  datatype Profile = Profile(
    age: string,
    currentGyokai: string,
    currentJob: string,
    role: string,
    experienceYears: string,
    targetGyokai: string,
    targetJob: string)

  /**
   * A template already cut into verbatim text and `{name}` placeholders;
   * Python's format-string parsing is not part of this model.
   */
  datatype Segment = Literal(text: string) | Placeholder(name: string)

  /** The seven names the template may refer to. */
  const ProfileKeys: set<string> :=
    {"age", "current_gyokai", "current_job", "role", "experience_years", "target_gyokai", "target_job"}

  /** The profile field a placeholder name refers to, if any. */
  function ProfileField(p: Profile, name: string): (r: Option<string>)
    ensures r.Some? <==> name in ProfileKeys
  {
    if name == "age" then Some(p.age)
    else if name == "current_gyokai" then Some(p.currentGyokai)
    else if name == "current_job" then Some(p.currentJob)
    else if name == "role" then Some(p.role)
    else if name == "experience_years" then Some(p.experienceYears)
    else if name == "target_gyokai" then Some(p.targetGyokai)
    else if name == "target_job" then Some(p.targetJob)
    else None
  }

  /** A segment that can be filled from any profile. */
  predicate Resolves(s: Segment) {
    s.Placeholder? ==> s.name in ProfileKeys
  }

  /** Concatenates two outcomes; the first error, in order, wins. */
  function Then(a: Result<string, KeyError>, b: Result<string, KeyError>): Result<string, KeyError> {
    if a.Err? then a else if b.Err? then b else Ok(a.value + b.value)
  }

  /** One segment filled from the profile. */
  function SegmentText(s: Segment, p: Profile): Result<string, KeyError> {
    match s
    case Literal(t) => Ok(t)
    case Placeholder(n) => if n in ProfileKeys then Ok(ProfileField(p, n).value) else Err(KeyError(n))
  }

  /**
   * The rules text: literal segments copied verbatim, each placeholder
   * replaced by its profile field; a placeholder naming no profile field
   * raises KeyError with its name, the first such placeholder in order.
   */
  function GetRules(template: seq<Segment>, p: Profile): (r: Result<string, KeyError>)
    ensures r.Ok? <==> forall i :: 0 <= i < |template| ==> Resolves(template[i])
  {
    if template == [] then Ok("")
    else Then(SegmentText(template[0], p), GetRules(template[1..], p))
  }

  /** Filling works segment by segment: it distributes over concatenation of templates, first error first. */
  lemma {:induction false} GetRulesAppend(a: seq<Segment>, b: seq<Segment>, p: Profile)
    ensures GetRules(a + b, p) == Then(GetRules(a, p), GetRules(b, p))
  {
    if a == [] {
      assert a + b == b;
      assert GetRules(b, p).Ok? ==> "" + GetRules(b, p).value == GetRules(b, p).value;
    } else {
      assert (a + b)[0] == a[0];
      assert (a + b)[1..] == a[1..] + b;
      GetRulesAppend(a[1..], b, p);
      var h, x, y := SegmentText(a[0], p), GetRules(a[1..], p), GetRules(b, p);
      if h.Ok? && x.Ok? && y.Ok? {
        assert h.value + (x.value + y.value) == (h.value + x.value) + y.value;
      }
    }
  }

  /** The literal segments of a template, concatenated in order. */
  function LiteralText(template: seq<Segment>): string {
    if template == [] then ""
    else (if template[0].Literal? then template[0].text else "") + LiteralText(template[1..])
  }

  /** A template of literal text only is copied verbatim, whatever the profile. */
  lemma {:induction false} GetRulesLiteralOnly(template: seq<Segment>, p: Profile)
    requires forall i :: 0 <= i < |template| ==> template[i].Literal?
    ensures GetRules(template, p) == Ok(LiteralText(template))
  {
    if template != [] {
      GetRulesLiteralOnly(template[1..], p);
    }
  }

  /** A placeholder naming a profile field is replaced by that field; any other raises KeyError with its name. */
  lemma GetRulesPlaceholder(before: seq<Segment>, name: string, after: seq<Segment>, p: Profile)
    requires GetRules(before, p).Ok? && GetRules(after, p).Ok?
    ensures name in ProfileKeys ==>
              GetRules(before + [Placeholder(name)] + after, p) ==
              Ok(GetRules(before, p).value + ProfileField(p, name).value + GetRules(after, p).value)
    ensures name !in ProfileKeys ==>
              GetRules(before + [Placeholder(name)] + after, p) == Err(KeyError(name))
  {
    var x, y := GetRules(before, p), GetRules(after, p);
    var mid := GetRules([Placeholder(name)], p);
    assert [Placeholder(name)][1..] == [];
    assert GetRules([Placeholder(name)][1..], p) == Ok("");
    assert mid == Then(SegmentText(Placeholder(name), p), Ok(""));
    GetRulesAppend(before + [Placeholder(name)], after, p);
    GetRulesAppend(before, [Placeholder(name)], p);
    if name in ProfileKeys {
      var v := ProfileField(p, name).value;
      assert mid == Ok(v + "");
      assert v + "" == v;
      assert x.value + v + y.value == (x.value + v) + y.value;
    }
  }

  /** Filling a template one segment longer at the front puts that segment's text first. */
  lemma GetRulesCons(s: Segment, rest: seq<Segment>, p: Profile, v: string, w: string)
    requires SegmentText(s, p) == Ok(v) && GetRules(rest, p) == Ok(w)
    ensures GetRules([s] + rest, p) == Ok(v + w)
  {
    assert ([s] + rest)[0] == s && ([s] + rest)[1..] == rest;
  }

  /** A line of the unit tests' sample template: age, current industry and current job. */
  function SampleLine1(): seq<Segment> {
    [Literal("年齢："), Placeholder("age"), Literal("、現在："), Placeholder("current_gyokai"), Literal("業界"), Placeholder("current_job"), Literal("、\n")]
  }

  /** Line 1 of the sample template filled from any profile. */
  lemma SampleLine1Filled(p: Profile)
    ensures GetRules(SampleLine1(), p) == Ok("年齢：" + p.age + "、現在：" + p.currentGyokai + "業界" + p.currentJob + "、\n")
  {
    var s0, s1, s2, s3, s4, s5, s6 := Literal("年齢："), Placeholder("age"), Literal("、現在："), Placeholder("current_gyokai"), Literal("業界"), Placeholder("current_job"), Literal("、\n");
    assert GetRules([], p) == Ok("");
    GetRulesCons(s6, [], p, "、\n", "");
    assert [s6] + [] == [s6];
    GetRulesCons(s5, [s6], p, p.currentJob, "、\n" + "");
    GetRulesCons(s4, [s5] + ([s6]), p, "業界", p.currentJob + ("、\n" + ""));
    GetRulesCons(s3, [s4] + ([s5] + ([s6])), p, p.currentGyokai, "業界" + (p.currentJob + ("、\n" + "")));
    GetRulesCons(s2, [s3] + ([s4] + ([s5] + ([s6]))), p, "、現在：", p.currentGyokai + ("業界" + (p.currentJob + ("、\n" + ""))));
    GetRulesCons(s1, [s2] + ([s3] + ([s4] + ([s5] + ([s6])))), p, p.age, "、現在：" + (p.currentGyokai + ("業界" + (p.currentJob + ("、\n" + "")))));
    GetRulesCons(s0, [s1] + ([s2] + ([s3] + ([s4] + ([s5] + ([s6]))))), p, "年齢：", p.age + ("、現在：" + (p.currentGyokai + ("業界" + (p.currentJob + ("、\n" + ""))))));
    assert [s0] + ([s1] + ([s2] + ([s3] + ([s4] + ([s5] + ([s6])))))) == [s0, s1, s2, s3, s4, s5, s6];
    assert "、\n" + "" == "、\n";
    assert "年齢：" + (p.age + ("、現在：" + (p.currentGyokai + ("業界" + (p.currentJob + ("、\n")))))) == "年齢：" + p.age + "、現在：" + p.currentGyokai + "業界" + p.currentJob + "、\n";
  }

  /** A line of the unit tests' sample template: role and years of experience. */
  function SampleLine2(): seq<Segment> {
    [Literal("役割："), Placeholder("role"), Literal("、経験："), Placeholder("experience_years"), Literal("、\n")]
  }

  /** Line 2 of the sample template filled from any profile. */
  lemma SampleLine2Filled(p: Profile)
    ensures GetRules(SampleLine2(), p) == Ok("役割：" + p.role + "、経験：" + p.experienceYears + "、\n")
  {
    var s0, s1, s2, s3, s4 := Literal("役割："), Placeholder("role"), Literal("、経験："), Placeholder("experience_years"), Literal("、\n");
    assert GetRules([], p) == Ok("");
    GetRulesCons(s4, [], p, "、\n", "");
    assert [s4] + [] == [s4];
    GetRulesCons(s3, [s4], p, p.experienceYears, "、\n" + "");
    GetRulesCons(s2, [s3] + ([s4]), p, "、経験：", p.experienceYears + ("、\n" + ""));
    GetRulesCons(s1, [s2] + ([s3] + ([s4])), p, p.role, "、経験：" + (p.experienceYears + ("、\n" + "")));
    GetRulesCons(s0, [s1] + ([s2] + ([s3] + ([s4]))), p, "役割：", p.role + ("、経験：" + (p.experienceYears + ("、\n" + ""))));
    assert [s0] + ([s1] + ([s2] + ([s3] + ([s4])))) == [s0, s1, s2, s3, s4];
    assert "、\n" + "" == "、\n";
    assert "役割：" + (p.role + ("、経験：" + (p.experienceYears + ("、\n")))) == "役割：" + p.role + "、経験：" + p.experienceYears + "、\n";
  }

  /** A line of the unit tests' sample template: target industry and target job. */
  function SampleLine3(): seq<Segment> {
    [Literal("転職先："), Placeholder("target_gyokai"), Literal("業界"), Placeholder("target_job")]
  }

  /** Line 3 of the sample template filled from any profile. */
  lemma SampleLine3Filled(p: Profile)
    ensures GetRules(SampleLine3(), p) == Ok("転職先：" + p.targetGyokai + "業界" + p.targetJob)
  {
    var s0, s1, s2, s3 := Literal("転職先："), Placeholder("target_gyokai"), Literal("業界"), Placeholder("target_job");
    assert GetRules([], p) == Ok("");
    GetRulesCons(s3, [], p, p.targetJob, "");
    assert [s3] + [] == [s3];
    GetRulesCons(s2, [s3], p, "業界", p.targetJob + "");
    GetRulesCons(s1, [s2] + ([s3]), p, p.targetGyokai, "業界" + (p.targetJob + ""));
    GetRulesCons(s0, [s1] + ([s2] + ([s3])), p, "転職先：", p.targetGyokai + ("業界" + (p.targetJob + "")));
    assert [s0] + ([s1] + ([s2] + ([s3]))) == [s0, s1, s2, s3];
    assert p.targetJob + "" == p.targetJob;
    assert "転職先：" + (p.targetGyokai + ("業界" + (p.targetJob))) == "転職先：" + p.targetGyokai + "業界" + p.targetJob;
  }

  /** The sample template of the unit tests: three lines, one placeholder per profile field. */
  function SampleTemplate(): seq<Segment> {
    SampleLine1() + SampleLine2() + SampleLine3()
  }

  /**
   * Filling the sample template puts each profile field at its own
   * placeholder, the literal text in between kept as it is, for every
   * profile.
   */
  lemma GetRulesSampleTemplate(p: Profile)
    ensures GetRules(SampleTemplate(), p) ==
            Ok(("年齢：" + p.age + "、現在：" + p.currentGyokai + "業界" + p.currentJob + "、\n") +
               ("役割：" + p.role + "、経験：" + p.experienceYears + "、\n") +
               ("転職先：" + p.targetGyokai + "業界" + p.targetJob))
  {
    SampleLine1Filled(p);
    SampleLine2Filled(p);
    SampleLine3Filled(p);
    GetRulesAppend(SampleLine1(), SampleLine2(), p);
    GetRulesAppend(SampleLine1() + SampleLine2(), SampleLine3(), p);
  }

  /** The sample profile of the unit tests; every field differs from every other. */
  function SampleProfile(): Profile {
    Profile("30", "IT", "エンジニア", "リーダー", "5年", "コンサルティング", "データサイエンティスト")
  }

  /**
   * The unit tests' sample: the sample template filled with the sample
   * profile gives the expected three lines, each profile value in its place.
   */
  lemma GetRulesSample()
    ensures GetRules(SampleTemplate(), SampleProfile()) ==
            Ok(("年齢：" + "30" + "、現在：" + "IT" + "業界" + "エンジニア" + "、\n") +
               ("役割：" + "リーダー" + "、経験：" + "5年" + "、\n") +
               ("転職先：" + "コンサルティング" + "業界" + "データサイエンティスト"))
  {
    GetRulesSampleTemplate(SampleProfile());
  }
}

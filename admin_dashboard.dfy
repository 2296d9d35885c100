/** The teachers' dashboard (`pages/AdminDashboard.tsx`): the bulk quiz
    importer and its upload in chunks of five, the quiz search, today's
    sickness alerts, the mood tally of the research tab, the pending
    redemption count and the reward form's validation. */
module AdminDashboard {
  import opened Common
  import opened Types
  import opened JsString
  import opened DbService

  // ------------------------------------------------------ bulk quiz import

  /** A question as the importer builds it: `answer` is the number that
      `parseInt` read, `None` standing for `NaN`. */
  datatype NewQuestion = NewQuestion(
    question: string,
    option1: string,
    option2: string,
    option3: string,
    option4: string,
    answer: Option<int>,
    icon: string)

  const DefaultIcon := "❓"
  const ChunkSize: nat := 5

  /** `parts.map(s => s.trim())` */
  function TrimAll(parts: seq<string>): (r: seq<string>)
    ensures |r| == |parts|
    ensures forall k :: 0 <= k < |r| ==> r[k] == Trim(parts[k])
  {
    seq(|parts|, k requires 0 <= k < |parts| => Trim(parts[k]))
  }

  /** One line of the import box: `|`-separated fields, trimmed; fewer than
      six fields drop the line; the seventh, when present and not empty, is
      the icon. */
  function ParseLine(line: string): (q: Option<NewQuestion>)
    ensures q.Some? <==> |Split(line, '|')| >= 6
    ensures q.Some? ==> q.value.icon != "" && q.value.question == Trim(Split(line, '|')[0])
  {
    ParseFields(TrimAll(Split(line, '|')))
  }

  /** The trimmed fields of one line made into a question. */
  function ParseFields(parts: seq<string>): (q: Option<NewQuestion>)
    ensures q.Some? <==> |parts| >= 6
    ensures q.Some? ==> q.value.icon != "" && q.value.question == parts[0]
    ensures q.Some? ==>
      [q.value.option1, q.value.option2, q.value.option3, q.value.option4] == parts[1..5]
      && q.value.answer == ParseInt(parts[5])
    ensures q.Some? ==> q.value.icon == (if |parts| > 6 && parts[6] != "" then parts[6] else DefaultIcon)
  {
    if |parts| < 6 then None
    else
      Some(NewQuestion(parts[0], parts[1], parts[2], parts[3], parts[4], ParseInt(parts[5]),
                       if |parts| > 6 && parts[6] != "" then parts[6] else DefaultIcon))
  }

  /** The lines of the trimmed input that are not blank. */
  function NonBlankLines(input: string): (ls: seq<string>)
    ensures forall l :: l in ls ==> Trim(l) != "" && '\n' !in l
  {
    Filter(Split(Trim(input), '\n'), (l: string) => Trim(l) != "")
  }

  /** `.map(...)` over the lines: one parse result per line. */
  function ParseAll(lines: seq<string>): (os: seq<Option<NewQuestion>>)
    ensures |os| == |lines|
    ensures forall k :: 0 <= k < |os| ==> os[k] == ParseLine(lines[k])
  {
    seq(|lines|, k requires 0 <= k < |lines| => ParseLine(lines[k]))
  }

  /** `.filter(q => q !== null)`: the results that are questions, in order. */
  function Present(os: seq<Option<NewQuestion>>): (qs: seq<NewQuestion>)
    ensures |qs| <= |os|
    ensures forall q :: q in qs ==> Some(q) in os
    ensures |qs| == |os| <==> forall k :: 0 <= k < |os| ==> os[k].Some?
  {
    if os == [] then []
    else (if os[0].Some? then [os[0].value] else []) + Present(os[1..])
  }

  lemma {:induction false} PresentAppend(a: seq<Option<NewQuestion>>, b: seq<Option<NewQuestion>>)
    ensures Present(a + b) == Present(a) + Present(b)
  {
    if a == [] {
      assert a + b == b;
    } else {
      var ab := a + b;
      assert ab[0] == a[0];
      assert ab[1..] == a[1..] + b;
      PresentAppend(a[1..], b);
    }
  }

  /** When every result is a question, none is dropped. */
  lemma {:induction false} PresentAllSome(os: seq<Option<NewQuestion>>, qs: seq<NewQuestion>)
    requires |os| == |qs|
    requires forall k :: 0 <= k < |os| ==> os[k] == Some(qs[k])
    ensures Present(os) == qs
  {
    if os != [] {
      PresentAllSome(os[1..], qs[1..]);
    }
  }

  /** The questions of the surviving lines, one per line with six fields or
      more, in input order. */
  function ParseLines(lines: seq<string>): (qs: seq<NewQuestion>)
    ensures |qs| <= |lines|
    ensures forall q :: q in qs ==> exists k :: 0 <= k < |lines| && ParseLine(lines[k]) == Some(q)
    ensures |qs| == |lines| <==> forall k :: 0 <= k < |lines| ==> |Split(lines[k], '|')| >= 6
  {
    var os := ParseAll(lines);
    assert forall k :: 0 <= k < |os| ==> (os[k].Some? <==> |Split(lines[k], '|')| >= 6);
    Present(os)
  }

  /** A single line yields its question, or nothing when it has fewer than
      six fields. */
  lemma ParseLinesSingle(line: string)
    ensures ParseLines([line]) == if |Split(line, '|')| >= 6 then [ParseLine(line).value] else []
  {
    assert ParseAll([line])[1..] == [];
  }

  /** Parsing distributes over the lines: nothing is re-ordered or merged. */
  lemma ParseLinesAppend(a: seq<string>, b: seq<string>)
    ensures ParseLines(a + b) == ParseLines(a) + ParseLines(b)
  {
    ParseAllAppend(a, b);
    PresentAppend(ParseAll(a), ParseAll(b));
  }

  /** The per-line results of two blocks of lines are those of each block,
      one after the other. */
  lemma ParseAllAppend(a: seq<string>, b: seq<string>)
    ensures ParseAll(a + b) == ParseAll(a) + ParseAll(b)
  {
    MapAppend(a, b, ParseLine, ParseAll(a), ParseAll(b), ParseAll(a + b));
  }

  /** `handleBulkAddQuiz`'s list of questions. */
  function ParseBulk(input: string): (qs: seq<NewQuestion>)
    ensures |qs| <= |NonBlankLines(input)|
    ensures forall q :: q in qs ==> q.icon != ""
    ensures forall q :: q in qs ==> exists l :: l in NonBlankLines(input) && ParseLine(l) == Some(q)
  {
    ParseLines(NonBlankLines(input))
  }

  /** The text a question round-trips through: the six fields and the icon
      joined by `|`, the answer written as `String(answer)`. */
  function ShowAnswer(a: Option<int>): string {
    if a.Some? then Show(a.value) else "NaN"
  }

  /** The seven fields of a question, in import order. */
  function Fields(q: NewQuestion): seq<string> {
    [q.question, q.option1, q.option2, q.option3, q.option4, ShowAnswer(q.answer), q.icon]
  }

  function FormatLine(q: NewQuestion): string {
    Join(Fields(q), '|')
  }

  /** A field that survives the importer: already trimmed, and free of the
      field and line separators. */
  predicate CleanField(s: string) {
    Trimmed(s) && '|' !in s && '\n' !in s
  }

  predicate WellFormed(q: NewQuestion) {
    CleanField(q.question) && CleanField(q.option1) && CleanField(q.option2)
    && CleanField(q.option3) && CleanField(q.option4) && CleanField(q.icon) && q.icon != ""
  }

  lemma ParseIntNaN()
    ensures ParseInt("NaN") == None
  {
    var s := "NaN";
    assert SkipSpace(s) == s;
    assert DigitPrefix(s, 10) == [];
  }

  /** `String(i)` is a sign and digits, ending in a digit. */
  lemma ShowShape(i: int)
    ensures var s := Show(i);
      s != "" && '0' <= s[|s| - 1] <= '9'
      && forall k :: 0 <= k < |s| ==> s[k] == '-' || '0' <= s[k] <= '9'
  {
    if i < 0 {
      var d := Decimal(-i);
      assert Show(i) == "-" + d;
      assert Show(i)[|Show(i)| - 1] == d[|d| - 1];
    }
  }

  /** The written answer is a clean, non-empty field. */
  lemma ShowAnswerClean(a: Option<int>)
    ensures CleanField(ShowAnswer(a)) && ShowAnswer(a) != ""
    ensures !IsSpace(ShowAnswer(a)[0]) && !IsSpace(ShowAnswer(a)[|ShowAnswer(a)| - 1])
  {
    var s := ShowAnswer(a);
    if a.Some? {
      ShowShape(a.value);
    }
    assert !IsSpace(s[0]) && !IsSpace(s[|s| - 1]);
  }

  lemma ShowAnswerRoundTrip(a: Option<int>)
    ensures ParseInt(ShowAnswer(a)) == a
    ensures CleanField(ShowAnswer(a)) && ShowAnswer(a) != ""
  {
    if a.Some? {
      ParseIntShow(a.value);
    } else {
      ParseIntNaN();
    }
    ShowAnswerClean(a);
  }

  /** Clean fields joined by `|`, split again and trimmed, come back. */
  lemma CleanFieldsRoundTrip(parts: seq<string>)
    requires |parts| >= 1
    requires forall k :: 0 <= k < |parts| ==> CleanField(parts[k])
    ensures TrimAll(Split(Join(parts, '|'), '|')) == parts
  {
    SplitJoin(parts, '|');
    forall k | 0 <= k < |parts| ensures Trim(parts[k]) == parts[k] {
      TrimUnchanged(parts[k]);
    }
  }

  /** The fields of a well-formed question need no trimming and hold no
      separator, so splitting its line gives them back. */
  lemma FormatLineFields(q: NewQuestion)
    requires WellFormed(q)
    ensures TrimAll(Split(FormatLine(q), '|')) == Fields(q)
  {
    ShowAnswerClean(q.answer);
    var fields := Fields(q);
    assert forall k :: 0 <= k < |fields| ==> CleanField(fields[k]);
    CleanFieldsRoundTrip(fields);
  }

  /** The fields of a well-formed question make that question again. */
  lemma ParseFieldsRoundTrip(q: NewQuestion)
    requires q.icon != ""
    ensures ParseFields(Fields(q)) == Some(q)
  {
    ShowAnswerRoundTrip(q.answer);
  }

  /** Writing a well-formed question as a line and importing that line gives
      the question back. */
  lemma ParseFormatLine(q: NewQuestion)
    requires WellFormed(q)
    ensures ParseLine(FormatLine(q)) == Some(q)
  {
    FormatLineFields(q);
    ParseFieldsRoundTrip(q);
  }

  /** A formatted line holds no line break, holds a field separator, and
      neither starts nor ends with white space. */
  lemma FormatLineShape(q: NewQuestion)
    requires WellFormed(q)
    ensures '\n' !in FormatLine(q) && '|' in FormatLine(q)
    ensures FormatLine(q) != [] && !IsSpace(FormatLine(q)[0]) && !IsSpace(FormatLine(q)[|FormatLine(q)| - 1])
  {
    var fields := Fields(q);
    ShowAnswerClean(q.answer);
    var s := FormatLine(q);
    assert forall k :: 0 <= k < |fields| ==> '\n' !in fields[k];
    JoinAvoids(fields, '|', '\n');
    JoinEnds(fields, '|');
    assert s[|q.question|] == '|';
    if q.question != "" {
      assert s[0] == s[..|q.question|][0] == q.question[0];
    }
    assert s[|s| - 1] == s[|s| - |q.icon|..][|q.icon| - 1] == q.icon[|q.icon| - 1];
  }

  function FormatLines(qs: seq<NewQuestion>): (ls: seq<string>)
    ensures |ls| == |qs| && forall k :: 0 <= k < |qs| ==> ls[k] == FormatLine(qs[k])
  {
    if qs == [] then [] else [FormatLine(qs[0])] + FormatLines(qs[1..])
  }

  /** Joining parts with no white space at their ends gives text with no
      white space at its ends. */
  lemma {:induction false} JoinEdges(parts: seq<string>, sep: char)
    requires |parts| >= 1
    requires forall k :: 0 <= k < |parts| ==> parts[k] != [] && !IsSpace(parts[k][0]) && !IsSpace(parts[k][|parts[k]| - 1])
    ensures var s := Join(parts, sep); s != [] && !IsSpace(s[0]) && !IsSpace(s[|s| - 1])
  {
    if |parts| > 1 {
      JoinEdges(parts[1..], sep);
      var rest := Join(parts[1..], sep);
      assert Join(parts, sep) == parts[0] + [sep] + rest;
    }
  }

  /** Formatting well-formed questions one per line and parsing the lines
      gives back the same questions, in order. */
  lemma ParseLinesFormatted(qs: seq<NewQuestion>)
    requires forall k :: 0 <= k < |qs| ==> WellFormed(qs[k])
    ensures ParseLines(FormatLines(qs)) == qs
  {
    var ls := FormatLines(qs);
    var os := ParseAll(ls);
    forall k | 0 <= k < |os|
      ensures os[k] == Some(qs[k])
    {
      ParseFormatLine(qs[k]);
    }
    PresentAllSome(os, qs);
  }

  lemma {:induction false} FilterKeepsAll(ls: seq<string>)
    requires forall k :: 0 <= k < |ls| ==> Trim(ls[k]) != ""
    ensures Filter(ls, (l: string) => Trim(l) != "") == ls
  {
    if ls != [] {
      FilterKeepsAll(ls[1..]);
    }
  }

  /** Lines that hold no line break and neither start nor end with white
      space survive the importer's trimming, splitting and blank-line filter
      as they are. */
  lemma NonBlankLinesJoin(ls: seq<string>)
    requires |ls| >= 1
    requires forall k :: 0 <= k < |ls| ==>
      '\n' !in ls[k] && ls[k] != [] && !IsSpace(ls[k][0]) && !IsSpace(ls[k][|ls[k]| - 1])
    ensures NonBlankLines(Join(ls, '\n')) == ls
  {
    var text := Join(ls, '\n');
    JoinEdges(ls, '\n');
    TrimUnchanged(text);
    SplitJoin(ls, '\n');
    forall k | 0 <= k < |ls|
      ensures Trim(ls[k]) != ""
    {
      TrimUnchanged(ls[k]);
    }
    FilterKeepsAll(ls);
  }

  /** A non-empty list of well-formed questions, written one per line and
      imported, comes back unchanged and in order. */
  lemma ParseBulkRoundTrip(qs: seq<NewQuestion>)
    requires qs != []
    requires forall k :: 0 <= k < |qs| ==> WellFormed(qs[k])
    ensures ParseBulk(Join(FormatLines(qs), '\n')) == qs
  {
    var ls := FormatLines(qs);
    forall k | 0 <= k < |ls|
      ensures '\n' !in ls[k] && ls[k] != [] && !IsSpace(ls[k][0]) && !IsSpace(ls[k][|ls[k]| - 1])
    {
      FormatLineShape(qs[k]);
    }
    NonBlankLinesJoin(ls);
    ParseLinesFormatted(qs);
  }

  /** The consecutive slices `slice(i, i + 5)` for `i = 0, 5, 10, ...`. */
  function Chunks(qs: seq<NewQuestion>): (cs: seq<seq<NewQuestion>>)
    ensures forall k :: 0 <= k < |cs| ==> 1 <= |cs[k]| <= ChunkSize
    ensures forall k :: 0 <= k < |cs| - 1 ==> |cs[k]| == ChunkSize
    decreases |qs|
  {
    if qs == [] then []
    else
      var n := Min(ChunkSize, |qs|);
      [qs[..n]] + Chunks(qs[n..])
  }

  function Flatten(cs: seq<seq<NewQuestion>>): seq<NewQuestion> {
    if cs == [] then [] else cs[0] + Flatten(cs[1..])
  }

  /** The slices cover the list exactly, in order. */
  lemma {:induction false} FlattenChunks(qs: seq<NewQuestion>)
    ensures Flatten(Chunks(qs)) == qs
    decreases |qs|
  {
    if qs != [] {
      var n := Min(ChunkSize, |qs|);
      FlattenChunks(qs[n..]);
      assert qs[..n] + qs[n..] == qs;
    }
  }

  lemma ChunksFrom(qs: seq<NewQuestion>, i: nat)
    requires i < |qs|
    ensures Chunks(qs[i..]) == [qs[i..Min(i + ChunkSize, |qs|)]] + Chunks(qs[Min(i + ChunkSize, |qs|)..])
  {
    var n := Min(ChunkSize, |qs[i..]|);
    assert qs[i..][..n] == qs[i..i + n];
    assert qs[i..][n..] == qs[i + n..];
  }

  /** One turn of the upload loop: the slice at `i` is the next one. */
  lemma ChunksStep(qs: seq<NewQuestion>, i: nat, sent: seq<seq<NewQuestion>>)
    requires i < |qs|
    requires Chunks(qs) == sent + Chunks(qs[i..])
    ensures Chunks(qs) == (sent + [qs[i..Min(i + ChunkSize, |qs|)]]) + Chunks(qs[Min(i + ChunkSize, |qs|)..])
    ensures Chunks(qs)[..|sent| + 1] == sent + [qs[i..Min(i + ChunkSize, |qs|)]]
  {
    ChunksFrom(qs, i);
    var chunk := qs[i..Min(i + ChunkSize, |qs|)];
    var later := Chunks(qs[Min(i + ChunkSize, |qs|)..]);
    assert sent + ([chunk] + later) == (sent + [chunk]) + later;
  }

  /** The upload loop: the slices are sent one after another; `resolves(k)`
      says whether the `k`-th call resolves. A rejection ends the loop, so
      the slices sent are always a prefix of all of them, the failing one
      last. */
  method Upload(qs: seq<NewQuestion>, resolves: nat -> bool) returns (sent: seq<seq<NewQuestion>>, ok: bool)
    ensures |sent| <= |Chunks(qs)| && sent == Chunks(qs)[..|sent|]
    ensures ok <==> forall k :: 0 <= k < |Chunks(qs)| ==> resolves(k)
    ensures ok ==> sent == Chunks(qs)
    ensures !ok ==> sent != [] && !resolves(|sent| - 1) && forall k :: 0 <= k < |sent| - 1 ==> resolves(k)
  {
    ghost var all := Chunks(qs);
    sent := [];
    ok := true;
    var i := 0;
    while i < |qs|
      invariant i == ChunkSize * |sent|
      invariant all == sent + Chunks(qs[Min(i, |qs|)..])
      invariant forall k :: 0 <= k < |sent| ==> resolves(k)
    {
      assert Min(i, |qs|) == i;
      ChunksStep(qs, i, sent);
      sent := sent + [qs[i..Min(i + ChunkSize, |qs|)]];
      if !resolves(|sent| - 1) {
        ok := false;
        assert all[..|sent|] == sent;
        return;
      }
      i := i + ChunkSize;
    }
    assert qs[Min(i, |qs|)..] == [];
    assert all == sent;
  }

  // ------------------------------------------------------------ quiz search

  /** A question matches a lower-cased term when its text or one of its
      options contains it, ignoring the case of ASCII letters. */
  predicate MatchesTerm(q: QuizQuestion, lower: string) {
    Includes(ToLower(q.question), lower) || Includes(ToLower(q.option1), lower)
    || Includes(ToLower(q.option2), lower) || Includes(ToLower(q.option3), lower)
    || Includes(ToLower(q.option4), lower)
  }

  function Matcher(lower: string): QuizQuestion -> bool {
    (q: QuizQuestion) => MatchesTerm(q, lower)
  }

  /** `filteredQuiz`: the whole pool for an empty term, otherwise the
      matching questions in pool order. */
  function FilteredQuiz(pool: seq<QuizQuestion>, term: string): (r: seq<QuizQuestion>)
    ensures term == "" ==> r == pool
    ensures |r| <= |pool| && forall q :: q in r ==> q in pool
  {
    if term == "" then pool else Filter(pool, Matcher(ToLower(term)))
  }

  /** With a term, exactly the matching questions are kept. */
  lemma FilteredQuizExact(pool: seq<QuizQuestion>, term: string, q: QuizQuestion)
    requires term != ""
    ensures q in FilteredQuiz(pool, term) <==> q in pool && MatchesTerm(q, ToLower(term))
  {
    if q in pool && MatchesTerm(q, ToLower(term)) {
      FilterComplete(pool, Matcher(ToLower(term)), q);
    }
  }

  /** The search keeps the pool's order: searching two blocks of questions
      one after the other gives the two results one after the other. */
  lemma FilteredQuizAppend(a: seq<QuizQuestion>, b: seq<QuizQuestion>, term: string)
    ensures FilteredQuiz(a + b, term) == FilteredQuiz(a, term) + FilteredQuiz(b, term)
  {
    if term != "" {
      FilterAppend(a, b, Matcher(ToLower(term)));
    }
  }

  /** A single question is kept exactly when the term is empty or it
      matches; with `FilteredQuizAppend` this fixes the whole result. */
  lemma FilteredQuizSingle(q: QuizQuestion, term: string)
    ensures FilteredQuiz([q], term) == if term == "" || MatchesTerm(q, ToLower(term)) then [q] else []
  {
    assert [q][1..] == [];
  }

  /** The search ignores the case of the term. */
  lemma FilteredQuizIgnoresCase(pool: seq<QuizQuestion>, term: string)
    ensures FilteredQuiz(pool, ToLower(term)) == FilteredQuiz(pool, term)
  {
    ToLowerIdempotent(term);
  }

  // --------------------------------------------------------- research tab

  /** A log that belongs on the sickness card: dated today, with a note
      that is not blank. */
  function IsAlert(dayOf: string -> Option<string>, today: string): HealthLog -> bool {
    (l: HealthLog) => dayOf(l.date) == Some(today) && Trim(l.sickness) != ""
  }

  /** `sicknessAlerts`: the logs dated today whose sickness note is not
      blank. Every log's date is converted, so one invalid date makes the
      whole computation throw (`None`). */
  function SicknessAlerts(logs: seq<HealthLog>, dayOf: string -> Option<string>, today: string): (r: Option<seq<HealthLog>>)
    ensures r.Some? <==> forall i :: 0 <= i < |logs| ==> dayOf(logs[i].date).Some?
    ensures r.Some? ==> |r.value| <= |logs|
    ensures r.Some? ==> r.value == Filter(logs, IsAlert(dayOf, today))
    ensures r.Some? ==> forall l :: l in r.value <==> l in logs && dayOf(l.date) == Some(today) && Trim(l.sickness) != ""
  {
    if logs == [] then Some([])
    else
      var l := logs[0];
      match dayOf(l.date)
      case None => None
      case Some(d) =>
        match SicknessAlerts(logs[1..], dayOf, today)
        case None => None
        case Some(rest) =>
          assert forall x :: x in logs <==> x == l || x in logs[1..];
          Some(if d == today && Trim(l.sickness) != "" then [l] + rest else rest)
  }

  datatype MoodTally = MoodTally(happy: nat, normal: nat, sad: nat, angry: nat) {
    function Total(): nat { happy + normal + sad + angry }
  }

  /** The four counters a list of logs should end with. */
  function Tally(logs: seq<HealthLog>): MoodTally {
    MoodTally(MoodCount(logs, "happy"), MoodCount(logs, "normal"),
              MoodCount(logs, "sad"), MoodCount(logs, "angry"))
  }

  /** A log is counted at most once, so the counters never add up to more
      than the number of logs. */
  lemma {:induction false} TallyAtMostLogs(logs: seq<HealthLog>)
    ensures Tally(logs).Total() <= |logs|
  {
    if logs != [] {
      var init := logs[..|logs| - 1];
      var x := logs[|logs| - 1];
      TallyAtMostLogs(init);
      assert logs == init + [x];
      MoodCountSnoc(init, x, "happy");
      MoodCountSnoc(init, x, "normal");
      MoodCountSnoc(init, x, "sad");
      MoodCountSnoc(init, x, "angry");
    }
  }

  /** The mood counters of `researchStats`: a log adds one to its mood's
      counter when that is one of the four counted moods; any other mood
      ("sleepy" included) is skipped. */
  method CountMoods(logs: seq<HealthLog>) returns (t: MoodTally)
    ensures t == Tally(logs)
    ensures t.Total() <= |logs|
  {
    t := MoodTally(0, 0, 0, 0);
    for i := 0 to |logs|
      invariant t == Tally(logs[..i])
    {
      var mood := logs[i].mood;
      assert logs[..i + 1] == logs[..i] + [logs[i]];
      MoodCountSnoc(logs[..i], logs[i], "happy");
      MoodCountSnoc(logs[..i], logs[i], "normal");
      MoodCountSnoc(logs[..i], logs[i], "sad");
      MoodCountSnoc(logs[..i], logs[i], "angry");
      if mood == "happy" {
        t := t.(happy := t.happy + 1);
      } else if mood == "normal" {
        t := t.(normal := t.normal + 1);
      } else if mood == "sad" {
        t := t.(sad := t.sad + 1);
      } else if mood == "angry" {
        t := t.(angry := t.angry + 1);
      }
    }
    assert logs[..|logs|] == logs;
    TallyAtMostLogs(logs);
  }

  /** The count on the overview card: redemptions still pending. */
  function PendingCount(rs: seq<RedemptionRecord>): (n: nat)
    ensures n <= |rs|
  {
    CountIf(rs, (r: RedemptionRecord) => r.status == Pending)
  }

  function CompletedCount(rs: seq<RedemptionRecord>): (n: nat)
    ensures n <= |rs|
  {
    CountIf(rs, (r: RedemptionRecord) => r.status == Completed)
  }

  /** Every redemption is either pending or completed. */
  lemma {:induction false} PendingPlusCompleted(rs: seq<RedemptionRecord>)
    ensures PendingCount(rs) + CompletedCount(rs) == |rs|
  {
    if rs != [] {
      PendingPlusCompleted(rs[1..]);
    }
  }

  // ------------------------------------------------------------ reward form

  /** The reward form: `id` is present while an existing reward is edited;
      `cost` and `stock` are `None` when the field is not a number (`NaN`).
      An emptied field reads as `Some(0)`, as `Number('')` is 0. */
  datatype RewardForm = RewardForm(
    id: Option<string>,
    title: string,
    cost: Option<int>,
    stock: Option<int>,
    icon: string,
    description: string)

  const EmptyRewardForm := RewardForm(None, "", Some(50), Some(10), "🎁", "")

  /** `handleSaveReward`'s check: a title, and a cost that is a number other
      than zero. A negative cost passes. */
  function RewardFormValid(f: RewardForm): (v: bool)
    ensures f.title == "" || f.cost.None? || f.cost == Some(0) ==> !v
    ensures f.title != "" && f.cost.Some? && f.cost.value != 0 ==> v
    ensures f == EmptyRewardForm ==> !v
  {
    f.title != "" && f.cost.Some? && f.cost.value != 0
  }

  lemma RewardFormValidCases(f: RewardForm)
    ensures f.title == "" ==> !RewardFormValid(f)
    ensures f.cost == Some(0) || f.cost.None? ==> !RewardFormValid(f)
    ensures f.title != "" && f.cost.Some? && f.cost.value < 0 ==> RewardFormValid(f)
  {
  }

  datatype BulkOutcome = NothingToImport | Imported | ImportStopped

  datatype RewardSaveOutcome = Incomplete | SaveCalled(o: ActionOutcome)

  class Dashboard {
    var bulkInput: string
    var rewardForm: RewardForm
    var isEditingReward: bool

    constructor ()
      ensures bulkInput == "" && rewardForm == EmptyRewardForm && !isEditingReward
    {
      bulkInput := "";
      rewardForm := EmptyRewardForm;
      isEditingReward := false;
    }

    /** `handleBulkAddQuiz`: nothing at all happens when every line is
        blank. Otherwise the parsed questions are uploaded in slices of five
        (none when no line is well formed); the box is emptied and the data
        refetched only when every slice was accepted. */
    method HandleBulkAddQuiz(resolves: nat -> bool) returns (o: BulkOutcome, sent: seq<seq<NewQuestion>>)
      modifies this`bulkInput
      ensures o == NothingToImport <==> NonBlankLines(old(bulkInput)) == []
      ensures o == NothingToImport ==> sent == []
      ensures var cs := Chunks(ParseBulk(old(bulkInput)));
        NonBlankLines(old(bulkInput)) != [] ==>
          |sent| <= |cs| && sent == cs[..|sent|]
          && (o == Imported <==> forall k :: 0 <= k < |cs| ==> resolves(k))
          && (o == Imported ==> sent == cs)
          && (o == ImportStopped ==>
                sent != [] && !resolves(|sent| - 1) && forall k :: 0 <= k < |sent| - 1 ==> resolves(k))
      ensures bulkInput == (if o == Imported then "" else old(bulkInput))
    {
      var lines := NonBlankLines(bulkInput);
      if lines == [] {
        return NothingToImport, [];
      }
      var ok;
      sent, ok := Upload(ParseLines(lines), resolves);
      if ok {
        bulkInput := "";
        o := Imported;
      } else {
        o := ImportStopped;
      }
    }

    /** `handleEditReward`: the form takes every field of the chosen reward,
        its id included, and the page enters edit mode. */
    method EditReward(r: ShopReward)
      modifies this`rewardForm, this`isEditingReward
      ensures rewardForm == RewardForm(Some(r.id), r.title, Some(r.cost), Some(r.stock), r.icon, r.description)
      ensures isEditingReward
      ensures r.title != "" && r.cost != 0 ==> RewardFormValid(rewardForm)
    {
      rewardForm := RewardForm(Some(r.id), r.title, Some(r.cost), Some(r.stock), r.icon, r.description);
      isEditingReward := true;
    }

    /** The cancel button shown in edit mode: back to an empty form. */
    method CancelEdit()
      modifies this`rewardForm, this`isEditingReward
      ensures rewardForm == EmptyRewardForm && !isEditingReward
    {
      rewardForm := EmptyRewardForm;
      isEditingReward := false;
    }

    /** `handleSaveReward`: an incomplete form is refused without a call;
        a truthy `success` resets the form, leaves edit mode and refetches. */
    method HandleSaveReward(urlLength: nat, d: Delivery<()>) returns (o: RewardSaveOutcome)
      modifies this`rewardForm, this`isEditingReward
      ensures o == Incomplete <==> !RewardFormValid(old(rewardForm))
      ensures o.SaveCalled? ==> o.o == ActOn(CallJSONP("saveShopReward", urlLength, d))
      ensures o == SaveCalled(Refresh) ==> rewardForm == EmptyRewardForm && !isEditingReward
      ensures o != SaveCalled(Refresh) ==>
        rewardForm == old(rewardForm) && isEditingReward == old(isEditingReward)
    {
      if !RewardFormValid(rewardForm) {
        return Incomplete;
      }
      var outcome := ActOn(CallJSONP("saveShopReward", urlLength, d));
      if outcome == Refresh {
        rewardForm := EmptyRewardForm;
        isEditingReward := false;
      }
      o := SaveCalled(outcome);
    }
  }
}

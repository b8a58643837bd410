/** The interactive review of pipeline/review.go. Standard input is a sequence of
    lines; when it runs out, `ReadString` keeps returning the empty string and the
    program asks again for ever, which is modelled as a session that is not complete. */
module Reviewing {
  import opened Wrappers
  import opened Domain
  import opened Text
  import Analyses

  datatype Decision = Approved | Rejected | Note

  const APPROVED := "approved"
  const REJECTED := "rejected"

  /** One letter in either case, with any white space around it. No other character
      lower-cases to one of the three letters. */
  function ParseDecision(input: string): (d: Option<Decision>)
    ensures d == Some(Approved) <==> TrimSpace(input) in {"a", "A"}
    ensures d == Some(Rejected) <==> TrimSpace(input) in {"r", "R"}
    ensures d == Some(Note) <==> TrimSpace(input) in {"n", "N"}
  {
    var word := TrimSpace(input);
    if word == "a" || word == "A" then Some(Approved)
    else if word == "r" || word == "R" then Some(Rejected)
    else if word == "n" || word == "N" then Some(Note)
    else None
  }

  predicate IsVerdict(line: string) {
    ParseDecision(line).Some? && !ParseDecision(line).value.Note?
  }

  function VerdictName(line: string): (name: string)
    ensures name in {APPROVED, REJECTED}
  {
    if ParseDecision(line) == Some(Approved) then APPROVED else REJECTED
  }

  // ------------------------------------------------------------ one clause

  datatype Answer = Answer(decision: string, annotation: string, used: nat)

  /** After a note, anything but approve or reject is asked again. */
  function ReadVerdict(lines: seq<string>, from: nat): (a: Option<Answer>)
    requires from <= |lines|
    ensures a.Some? ==> from < a.value.used <= |lines|
    ensures a.Some? ==> a.value.decision in {APPROVED, REJECTED}
    decreases |lines| - from
  {
    if from == |lines| then None
    else if IsVerdict(lines[from]) then Some(Answer(VerdictName(lines[from]), "", from + 1))
    else ReadVerdict(lines, from + 1)
  }

  function ReadAnswer(lines: seq<string>, from: nat): (a: Option<Answer>)
    requires from <= |lines|
    ensures a.Some? ==> from < a.value.used <= |lines|
    ensures a.Some? ==> a.value.decision in {APPROVED, REJECTED}
    decreases |lines| - from
  {
    if from == |lines| then None
    else
      match ParseDecision(lines[from])
      case None => ReadAnswer(lines, from + 1)
      case Some(Note) =>
        if from + 1 == |lines| then None
        else
          (match ReadVerdict(lines, from + 2)
           case None => None
           case Some(v) => Some(Answer(v.decision, TrimSpace(lines[from + 1]), v.used)))
      case Some(_) => Some(Answer(VerdictName(lines[from]), "", from + 1))
  }

  /** Lines 110-118: the prompt after a note. */
  method PromptVerdict(lines: seq<string>, from: nat) returns (answer: Option<Answer>)
    requires from <= |lines|
    ensures answer == ReadVerdict(lines, from)
    ensures forall note ::
              var given := Readings(lines, from, AfterNote(note));
              if answer.None? then given == []
              else given != [] && IsAnswer(Answer(answer.value.decision, TrimSpace(note), answer.value.used), given[0])
  {
    forall note {
      VerdictConsumes(lines, from, note);
    }
    hide Readings, IsAnswer;
    var next := from;
    while next < |lines|
      invariant from <= next <= |lines|
      invariant ReadVerdict(lines, next) == ReadVerdict(lines, from)
    {
      if IsVerdict(lines[next]) {
        return Some(Answer(VerdictName(lines[next]), "", next + 1));
      }
      next := next + 1;
    }
    return None;
  }

  /** Lines 97-124: the prompt for one clause. */
  method Prompt(lines: seq<string>, from: nat) returns (answer: Option<Answer>)
    requires from <= |lines|
    ensures answer == ReadAnswer(lines, from)
    ensures var given := Readings(lines, from, Outside);
            if answer.None? then given == []
            else
              && given != [] && IsAnswer(answer.value, given[0])
              && given[1..] == Readings(lines, answer.value.used, Outside)
  {
    AnswerConsumes(lines, from);
    hide Readings, IsAnswer;
    var pos := from;
    while pos < |lines|
      invariant from <= pos <= |lines|
      invariant ReadAnswer(lines, pos) == ReadAnswer(lines, from)
    {
      var d := ParseDecision(lines[pos]);
      if d == None {
        pos := pos + 1;
        continue;
      }
      if d == Some(Note) {
        if pos + 1 == |lines| { return None; }
        var annotation := TrimSpace(lines[pos + 1]);
        var verdict := PromptVerdict(lines, pos + 2);
        if verdict.Some? {
          verdict := Some(Answer(verdict.value.decision, annotation, verdict.value.used));
        }
        return verdict;
      }
      return Some(Answer(VerdictName(lines[pos]), "", pos + 1));
    }
    return None;
  }

  // ------------------------------------------------------------ all clauses

  /** The reviews a session saves, and whether it got through all clauses. */
  datatype Session = Session(saved: seq<Review>, complete: bool)

  function Unreviewed(clauses: seq<Clause>, reviewed: set<string>): seq<Clause> {
    if clauses == [] then []
    else if clauses[0].id in reviewed then Unreviewed(clauses[1..], reviewed)
    else [clauses[0]] + Unreviewed(clauses[1..], reviewed)
  }

  function RunSession(todo: seq<Clause>, lines: seq<string>, from: nat): Session
    requires from <= |lines|
  {
    if todo == [] then Session([], true)
    else
      match ReadAnswer(lines, from)
      case None => Session([], false)
      case Some(a) =>
        var rest := RunSession(todo[1..], lines, a.used);
        Session([Review(todo[0].id, a.decision, a.annotation)] + rest.saved, rest.complete)
  }

  predicate Approves(line: string) { TrimSpace(line) in {"a", "A"} }
  predicate Rejects(line: string) { TrimSpace(line) in {"r", "R"} }
  predicate AsksForNote(line: string) { TrimSpace(line) in {"n", "N"} }

  /** A line that decides, and the annotation line in front of it, if a note was asked
      for. */
  datatype Reading = Reading(line: string, note: Option<string>)

  /** The decisions the input holds, read as a three-state automaton: outside a note, on
      the annotation line, and waiting for the decision after a note. */
  datatype Mode = Outside | Annotation | AfterNote(note: string)

  function Readings(lines: seq<string>, from: nat, mode: Mode): seq<Reading>
    requires from <= |lines|
    decreases |lines| - from
  {
    if from == |lines| then []
    else
      var line := lines[from];
      match mode
      case Annotation => Readings(lines, from + 1, AfterNote(line))
      case AfterNote(note) =>
        if Approves(line) || Rejects(line) then [Reading(line, Some(note))] + Readings(lines, from + 1, Outside)
        else Readings(lines, from + 1, mode)
      case Outside =>
        if Approves(line) || Rejects(line) then [Reading(line, None)] + Readings(lines, from + 1, Outside)
        else if AsksForNote(line) then Readings(lines, from + 1, Annotation)
        else Readings(lines, from + 1, Outside)
  }

  /** A stored review says what was read: the decision of the line and the trimmed note. */
  ghost predicate Says(review: Review, reading: Reading) {
    && (review.decision == "approved" <==> Approves(reading.line))
    && (review.decision == "rejected" <==> Rejects(reading.line))
    && review.annotation == if reading.note.Some? then TrimSpace(reading.note.value) else ""
  }

  ghost predicate IsAnswer(a: Answer, reading: Reading) { Says(Review("", a.decision, a.annotation), reading) }

  lemma NameOfVerdict(line: string)
    ensures IsVerdict(line) <==> Approves(line) || Rejects(line)
    ensures ParseDecision(line) == Some(Note) <==> AsksForNote(line)
    ensures IsVerdict(line) ==> (VerdictName(line) == "approved" <==> Approves(line))
                                && (VerdictName(line) == "rejected" <==> Rejects(line))
  {
    hide TrimSpace;
  }

  lemma {:induction false} VerdictConsumes(lines: seq<string>, from: nat, note: string)
    requires from <= |lines|
    ensures var a, rest := ReadVerdict(lines, from), Readings(lines, from, AfterNote(note));
            if a.None? then rest == []
            else
              && rest != [] && rest[1..] == Readings(lines, a.value.used, Outside)
              && IsAnswer(Answer(a.value.decision, TrimSpace(note), a.value.used), rest[0])
    decreases |lines| - from
  {
    if from < |lines| {
      NameOfVerdict(lines[from]);
      hide ParseDecision, TrimSpace, VerdictName, IsVerdict, Approves, Rejects, AsksForNote;
      if !IsVerdict(lines[from]) {
        VerdictConsumes(lines, from + 1, note);
      }
    }
  }

  lemma {:induction false} AnswerConsumes(lines: seq<string>, from: nat)
    requires from <= |lines|
    ensures var a, rest := ReadAnswer(lines, from), Readings(lines, from, Outside);
            if a.None? then rest == []
            else
              && rest != [] && rest[1..] == Readings(lines, a.value.used, Outside)
              && IsAnswer(a.value, rest[0])
    decreases |lines| - from
  {
    if from < |lines| {
      NameOfVerdict(lines[from]);
      hide TrimSpace, VerdictName, Approves, Rejects, AsksForNote;
      match ParseDecision(lines[from])
      case None => AnswerConsumes(lines, from + 1);
      case Some(Note) =>
        if from + 1 < |lines| {
          VerdictConsumes(lines, from + 2, lines[from + 1]);
        }
      case Some(_) =>
    }
  }

  lemma SaysAnswer(id: string, a: Answer, reading: Reading)
    requires IsAnswer(a, reading)
    ensures Says(Review(id, a.decision, a.annotation), reading)
  {
  }

  /** Reviews that say, one by one, what was read for the clauses to do. */
  ghost predicate IsRecord(todo: seq<Clause>, saved: seq<Review>, given: seq<Reading>) {
    && |saved| == (if |given| < |todo| then |given| else |todo|)
    && forall i :: 0 <= i < |saved| ==>
         && saved[i].clauseId == todo[i].id && saved[i].decision in {APPROVED, REJECTED}
         && Says(saved[i], given[i])
  }

  lemma RecordCons(todo: seq<Clause>, saved: seq<Review>, given: seq<Reading>)
    requires todo != [] && saved != [] && given != [] && IsRecord(todo[1..], saved[1..], given[1..])
    requires saved[0].clauseId == todo[0].id && saved[0].decision in {APPROVED, REJECTED} && Says(saved[0], given[0])
    ensures IsRecord(todo, saved, given)
  {
    hide Says;
    forall i | 1 <= i < |saved|
      ensures i < |given| && i < |todo| && saved[i].clauseId == todo[i].id
      ensures saved[i].decision in {APPROVED, REJECTED} && Says(saved[i], given[i])
    {
      assert saved[i] == saved[1..][i - 1] && given[i] == given[1..][i - 1] && todo[i] == todo[1..][i - 1];
    }
  }

  /** A session saves one review per remaining clause, in clause order, as far as the input
      goes; each says what its line decides and its note holds; and the session completes
      exactly when the input holds a decision for each clause. */
  lemma {:induction false} SessionOutcome(todo: seq<Clause>, lines: seq<string>, from: nat)
    requires from <= |lines|
    ensures var s, given := RunSession(todo, lines, from), Readings(lines, from, Outside);
            && (s.complete <==> |given| >= |todo|)
            && IsRecord(todo, s.saved, given)
    decreases |todo|
  {
    if todo != [] {
      AnswerConsumes(lines, from);
      hide Readings, ReadAnswer, Says, IsAnswer;
      var a, s, given := ReadAnswer(lines, from), RunSession(todo, lines, from), Readings(lines, from, Outside);
      if a.Some? {
        SessionOutcome(todo[1..], lines, a.value.used);
        SaysAnswer(todo[0].id, a.value, given[0]);
        hide IsRecord;
        var rest := RunSession(todo[1..], lines, a.value.used);
        assert s.saved == [Review(todo[0].id, a.value.decision, a.value.annotation)] + rest.saved;
        assert s.saved[1..] == rest.saved;
        RecordCons(todo, s.saved, given);
      }
    }
  }

  // ------------------------------------------------------- the end of input

  ghost predicate OnlyEmpty(more: seq<string>) {
    forall i :: 0 <= i < |more| ==> more[i] == ""
  }

  lemma EmptyDecidesNothing()
    ensures ParseDecision("") == None
  {
    assert TrimSpace("") == "";
  }

  lemma {:induction false} VerdictAtEnd(lines: seq<string>, more: seq<string>, from: nat)
    requires OnlyEmpty(more) && from <= |lines + more|
    ensures ReadVerdict(lines + more, from) == if from <= |lines| then ReadVerdict(lines, from) else None
    decreases |lines + more| - from
  {
    EmptyDecidesNothing();
    hide ParseDecision, VerdictName;
    if from < |lines + more| {
      VerdictAtEnd(lines, more, from + 1);
    }
  }

  lemma {:induction false} AnswerAtEnd(lines: seq<string>, more: seq<string>, from: nat)
    requires OnlyEmpty(more) && from <= |lines + more|
    ensures ReadAnswer(lines + more, from) == if from <= |lines| then ReadAnswer(lines, from) else None
    decreases |lines + more| - from
  {
    hide ParseDecision, VerdictName, ReadVerdict, IsVerdict, TrimSpace;
    EmptyDecidesNothing();
    if from < |lines + more| {
      assert (lines + more)[from] == if from < |lines| then lines[from] else "";
      AnswerAtEnd(lines, more, from + 1);
      if from + 2 <= |lines + more| {
        VerdictAtEnd(lines, more, from + 2);
      }
    }
  }

  /** The empty lines that are read behind the end of the input, however many, neither
      save a review nor complete a session: one the input does not complete asks for
      ever. */
  lemma {:induction false} AsksForEver(todo: seq<Clause>, lines: seq<string>, more: seq<string>, from: nat)
    requires OnlyEmpty(more) && from <= |lines|
    ensures RunSession(todo, lines + more, from) == RunSession(todo, lines, from)
    decreases |todo|
  {
    if todo != [] {
      AnswerAtEnd(lines, more, from);
      var a := ReadAnswer(lines, from);
      if a.Some? {
        AsksForEver(todo[1..], lines, more, a.value.used);
      }
    }
  }

  /** In their order: numbers that ascend still do. */
  lemma {:induction false} UnreviewedInOrder(clauses: seq<Clause>, reviewed: set<string>)
    requires Analyses.Ascending(clauses)
    ensures Analyses.Ascending(Unreviewed(clauses, reviewed))
  {
    if clauses != [] {
      UnreviewedInOrder(clauses[1..], reviewed);
      UnreviewedMeans(clauses[1..], reviewed);
      var rest := Unreviewed(clauses[1..], reviewed);
      forall i | 0 <= i < |rest|
        ensures clauses[0].sequenceNumber < rest[i].sequenceNumber
      {
        assert rest[i] in clauses[1..];
      }
    }
  }

  lemma {:induction false} UnreviewedMeans(clauses: seq<Clause>, reviewed: set<string>)
    ensures forall c :: c in Unreviewed(clauses, reviewed) <==> c in clauses && c.id !in reviewed
    ensures Unreviewed(clauses, reviewed) == [] <==> forall c :: c in clauses ==> c.id in reviewed
  {
    if clauses != [] {
      assert clauses == [clauses[0]] + clauses[1..];
      UnreviewedMeans(clauses[1..], reviewed);
    }
  }
}

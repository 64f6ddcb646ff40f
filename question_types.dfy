/**
  `types/question.rs`: the question id, read from a path segment by
  `FromStr` and shown by `Display`, and the two shapes of a question,
  with and without its id.
 */
module TypesQuestion {
  import opened Wrappers
  import opened RustStd

  datatype QuestionId = QuestionId(value: int32)

  /** The message of the error for an empty id */
  const NO_ID_PROVIDED: string := "No id provided"

  /** `Display` for `QuestionId`: the decimal text of the number */
  function IdText(id: QuestionId): (s: string)
    ensures |s| > 0 && ',' !in s
  {
    Int32ToString(id.value)
  }

  /**
    `QuestionId::from_str`. The empty string is an `InvalidInput` error;
    anything else goes through `parse::<i32>().unwrap()`, which panics on a
    non-number, so a caller must pass the empty string or a number.
   */
  function FromStr(s: string): (r: Result<QuestionId, IoError>)
    requires s == [] || ParseI32(s).Ok?
    ensures r.Err? <==> s == []
    ensures r.Err? ==> r.error == IoError(InvalidInput, NO_ID_PROVIDED)
    ensures r.Ok? ==> Ok(r.value.value) == ParseI32(s)
  {
    if s == [] then Err(IoError(InvalidInput, NO_ID_PROVIDED))
    else Ok(QuestionId(ParseI32(s).value))
  }

  /** Reading back the text an id displays as gives the id. */
  lemma IdRoundTrip(id: QuestionId)
    ensures ParseI32(IdText(id)).Ok?
    ensures FromStr(IdText(id)) == Ok(id)
  {
  }

  /** A question with its id, as stored and as answered */
  datatype Question = Question(id: QuestionId, title: string, content: string, tags: Option<seq<string>>)

  /** A question as posted, before the store gives it an id */
  datatype NewQuestion = NewQuestion(title: string, content: string, tags: Option<seq<string>>)

  /** The fields after the id, shared by both `Display` implementations */
  function FieldsText(title: string, content: string, tags: Option<seq<string>>): string
  {
    "title: " + title + ", content: " + content + ", tags: " + DebugTags(tags)
  }

  /**
    `Display` for `Question`: the id, then the fields. The text opens with
    the id's text, and its first comma is the one that ends it.
   */
  function QuestionText(q: Question): (s: string)
    ensures |IdText(q.id)| < |s| && s[..|IdText(q.id)|] == IdText(q.id)
    ensures IndexOf(s, ',') == |IdText(q.id)|
  {
    var id, rest := IdText(q.id), " " + FieldsText(q.title, q.content, q.tags);
    assert id + ", " + FieldsText(q.title, q.content, q.tags) == id + [','] + rest;
    IndexOfAfter(id, ',', rest);
    id + ", " + FieldsText(q.title, q.content, q.tags)
  }

  const NEW_QUESTION_PREFIX: string := "New question: "

  /** `Display` for `NewQuestion`: the fixed prefix, then the fields */
  function NewQuestionText(q: NewQuestion): (s: string)
    ensures |NEW_QUESTION_PREFIX| < |s| && s[..|NEW_QUESTION_PREFIX|] == NEW_QUESTION_PREFIX
  {
    NEW_QUESTION_PREFIX + FieldsText(q.title, q.content, q.tags)
  }

  /** The position of the first `c` in `s`, or `|s|` if there is none */
  function IndexOf(s: string, c: char): (i: nat)
    ensures i <= |s|
    ensures forall j :: 0 <= j < i ==> s[j] != c
    ensures i < |s| ==> s[i] == c
  {
    if s == [] then 0
    else if s[0] == c then 0
    else 1 + IndexOf(s[1..], c)
  }

  /** The first `c` of `a + [c] + b` is the one after `a` when `a` holds none. */
  lemma {:induction false} IndexOfAfter(a: string, c: char, b: string)
    requires c !in a
    ensures IndexOf(a + [c] + b, c) == |a|
  {
    if a != [] {
      assert (a + [c] + b)[1..] == a[1..] + [c] + b;
      IndexOfAfter(a[1..], c, b);
    }
  }

  /** The text of a question tells its id: two questions that display alike have the same id. */
  lemma QuestionTextDeterminesId(q1: Question, q2: Question)
    requires QuestionText(q1) == QuestionText(q2)
    ensures q1.id == q2.id
  {
    assert IdText(q1.id) == IdText(q2.id);
    IdRoundTrip(q1.id);
    IdRoundTrip(q2.id);
  }

  /** A question's text never reads as a new question's: one starts with its id, the other with a letter. */
  lemma QuestionAndNewQuestionTextsDiffer(q: Question, n: NewQuestion)
    ensures QuestionText(q) != NewQuestionText(n)
  {
    var s := Int32ToString(q.id.value);
    assert s[0] == '-' || IsDigit(s[0]) by {
      if q.id.value >= 0 {
        assert IsDigit(NatToString(q.id.value)[0]);
      }
    }
    assert QuestionText(q)[0] == IdText(q.id)[0] == s[0];
    assert NewQuestionText(n)[0] == NEW_QUESTION_PREFIX[0] == 'N';
  }
}

/** `types/answer.rs`: the answer id, which is any non-empty text, and the answer itself. */
module TypesAnswer {
  import opened Wrappers
  import opened RustStd
  import TypesQuestion

  datatype AnswerId = AnswerId(value: string)

  datatype Answer = Answer(id: AnswerId, content: string, questionId: TypesQuestion.QuestionId)

  /** `AnswerId::from_str`: the empty string is an `InvalidInput` error, anything else is the id as it is. */
  function FromStr(s: string): (r: Result<AnswerId, IoError>)
    ensures r.Ok? <==> s != []
    ensures r.Ok? ==> r.value.value == s
    ensures r.Err? ==> r.error == IoError(InvalidInput, TypesQuestion.NO_ID_PROVIDED)
  {
    if s == [] then Err(IoError(InvalidInput, TypesQuestion.NO_ID_PROVIDED))
    else Ok(AnswerId(s))
  }

  /** An id's text reads back as the same id, and only non-empty ids can be read. */
  lemma AnswerIdRoundTrip(id: AnswerId)
    ensures FromStr(id.value).Ok? <==> id.value != []
    ensures id.value != [] ==> FromStr(id.value) == Ok(id)
  {
  }
}

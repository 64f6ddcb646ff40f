/**
  The database behind `store.rs`, kept as tables rather than SQL: the
  `questions` table as a map from id to the question and its owner, and the
  `accounts` table as a map from the unique email to the id and password
  hash. Each round trip takes a `fault`, the driver error it may meet
  instead of an answer.
 */
module Store {
  import opened Wrappers
  import opened RustStd
  import opened Listing
  import opened Warp
  import opened HandleErrors
  import opened TypesQuestion
  import opened TypesAccount

  /** A row of `questions`: the question and the account that posted it */
  datatype QuestionRow = QuestionRow(question: Question, owner: AccountId)

  /** A row of `accounts`, found by its email */
  datatype AccountRow = AccountRow(id: AccountId, password: string)

  /** PostgreSQL's SQLSTATE codes for the failures the model raises by itself */
  const NEGATIVE_OFFSET: string := "2201X"
  const NEGATIVE_LIMIT: string := "2201W"
  const SEQUENCE_EXHAUSTED: string := "2200H"
  const UNIQUE_VIOLATION: string := "23505"
  /** `undefined_function`: PostgreSQL has no operator for the comparison asked for */
  const UNDEFINED_FUNCTION: string := "42883"

  class Store {
    var questions: map<int32, QuestionRow>
    /** The order in which a `SELECT` without `ORDER BY` returns the rows */
    var order: seq<int32>
    /** The next value of the `serial` id of `questions` */
    var nextQuestionId: int
    var accounts: map<string, AccountRow>
    /** The next value of the `serial` id of `accounts` */
    var nextAccountId: int

    ghost predicate Valid()
      reads this
    {
      IsEnumeration(order, questions.Keys) &&
      (forall id :: id in questions ==> questions[id].question.id == QuestionId(id) && id < nextQuestionId) &&
      1 <= nextQuestionId <= TWO_TO_THE_31 &&
      (forall e :: e in accounts ==> 1 <= accounts[e].id.value < nextAccountId) &&
      (forall e1, e2 :: e1 in accounts && e2 in accounts && e1 != e2 ==> accounts[e1].id != accounts[e2].id) &&
      1 <= nextAccountId <= TWO_TO_THE_31
    }

    /** Empty tables, both sequences at their start */
    constructor ()
      ensures Valid()
      ensures questions == map[] && order == [] && accounts == map[]
      ensures nextQuestionId == 1 && nextAccountId == 1
    {
      questions, order, nextQuestionId := map[], [], 1;
      accounts, nextAccountId := map[], 1;
    }

    /** The rows' questions in the order a `SELECT` returns them */
    function Listed(): (qs: seq<Question>)
      reads this
      requires Valid()
      ensures |qs| == |order|
      ensures forall i :: 0 <= i < |order| ==> qs[i] == questions[order[i]].question
    {
      seq(|order|, i requires 0 <= i < |order| && order[i] in questions reads this => questions[order[i]].question)
    }

    /** `get_questions`: `SELECT * FROM questions LIMIT $1 OFFSET $2`; PostgreSQL refuses a negative offset or limit. */
    function SelectQuestions(limit: Option<int32>, offset: int32, fault: Option<SqlxError>): (r: Result<seq<Question>, Error>)
      reads this
      requires Valid()
      ensures r.Ok? <==> fault.None? && offset >= 0 && (limit.Some? ==> limit.value >= 0)
      ensures r.Ok? ==> r.value == Page(Listed(), offset, if limit.Some? then Some(limit.value as nat) else None)
    {
      if fault.Some? then Err(DatabaseQueryError(fault.value))
      else if offset < 0 then Err(DatabaseQueryError(Database(Some(NEGATIVE_OFFSET))))
      else if limit.Some? && limit.value < 0 then Err(DatabaseQueryError(Database(Some(NEGATIVE_LIMIT))))
      else Ok(Page(Listed(), offset, if limit.Some? then Some(limit.value as nat) else None))
    }

    /** `get_question`: `fetch_optional` of the row with this id */
    function SelectQuestion(id: int32, fault: Option<SqlxError>): (r: Result<Option<Question>, Error>)
      reads this
      ensures r.Ok? <==> fault.None?
      ensures r.Ok? ==> (r.value.Some? <==> id in questions)
      ensures r.Ok? && r.value.Some? ==> r.value.value == questions[id].question
    {
      if fault.Some? then Err(DatabaseQueryError(fault.value))
      else if id in questions then Ok(Some(questions[id].question))
      else Ok(None)
    }

    /** A row with this id and this owner exists. */
    predicate Owns(id: int32, owner: AccountId)
      reads this
    {
      id in questions && questions[id].owner == owner
    }

    /** `is_question_owner`: whether `SELECT id ... WHERE id = $1 and account_id = $2` finds a row */
    function IsQuestionOwner(id: int32, owner: AccountId, fault: Option<SqlxError>): (r: Result<bool, Error>)
      reads this
      ensures r.Ok? <==> fault.None?
      ensures r.Ok? ==> (r.value <==> id in questions && questions[id].owner == owner)
    {
      if fault.Some? then Err(DatabaseQueryError(fault.value)) else Ok(Owns(id, owner))
    }

    /** `get_account`: `fetch_one` of the account with this email; none is `RowNotFound`. */
    function GetAccount(email: string, fault: Option<SqlxError>): (r: Result<Account, Error>)
      reads this
      ensures r.Ok? <==> fault.None? && email in accounts
      ensures fault.None? && email !in accounts ==> r == Err(DatabaseQueryError(RowNotFound))
      ensures r.Ok? ==> r.value == Account(Some(accounts[email].id), email, accounts[email].password)
    {
      if fault.Some? then Err(DatabaseQueryError(fault.value))
      else if email !in accounts then Err(DatabaseQueryError(RowNotFound))
      else Ok(Account(Some(accounts[email].id), email, accounts[email].password))
    }

    /** `add_question`: `INSERT ... RETURNING`; the new row takes the next serial id and goes last. */
    method AddQuestion(nq: NewQuestion, owner: AccountId, fault: Option<SqlxError>) returns (r: Result<Question, Error>)
      requires Valid()
      modifies this
      ensures Valid()
      ensures fault.Some? ==> r == Err(DatabaseQueryError(fault.value))
      ensures fault.None? && old(nextQuestionId) == TWO_TO_THE_31 ==> r == Err(DatabaseQueryError(Database(Some(SEQUENCE_EXHAUSTED))))
      ensures r.Ok? <==> fault.None? && old(nextQuestionId) < TWO_TO_THE_31
      ensures r.Err? ==> unchanged(this)
      ensures r.Ok? ==>
        var id := old(nextQuestionId);
        fault.None? && id < TWO_TO_THE_31 && id !in old(questions) &&
        r.value == Question(QuestionId(id), nq.title, nq.content, nq.tags) &&
        questions == old(questions)[id := QuestionRow(r.value, owner)] &&
        order == old(order) + [id] && nextQuestionId == id + 1 &&
        accounts == old(accounts) && nextAccountId == old(nextAccountId)
    {
      if fault.Some? {
        return Err(DatabaseQueryError(fault.value));
      }
      if nextQuestionId == TWO_TO_THE_31 {
        return Err(DatabaseQueryError(Database(Some(SEQUENCE_EXHAUSTED))));
      }
      var id: int32 := nextQuestionId;
      var q := Question(QuestionId(id), nq.title, nq.content, nq.tags);
      AppendEnumerates(order, questions.Keys, id);
      questions := questions[id := QuestionRow(q, owner)];
      order := order + [id];
      nextQuestionId := nextQuestionId + 1;
      r := Ok(q);
    }

    /**
      `update_question`: `UPDATE ... WHERE id = $4 AND account_id = $5
      RETURNING ...` through `fetch_one`. The row keeps its id and owner and
      takes the new title, content and tags; with no such row it is
      `RowNotFound`.
     */
    method UpdateQuestion(id: int32, q: Question, owner: AccountId, fault: Option<SqlxError>) returns (r: Result<Question, Error>)
      requires Valid()
      modifies this
      ensures Valid()
      ensures fault.Some? ==> r == Err(DatabaseQueryError(fault.value))
      ensures fault.None? && !old(Owns(id, owner)) ==> r == Err(DatabaseQueryError(RowNotFound))
      ensures r.Ok? <==> fault.None? && old(Owns(id, owner))
      ensures r.Err? ==> unchanged(this)
      ensures r.Ok? ==>
        fault.None? && old(Owns(id, owner)) &&
        r.value == Question(QuestionId(id), q.title, q.content, q.tags) &&
        questions == old(questions)[id := QuestionRow(r.value, owner)] &&
        order == old(order) && nextQuestionId == old(nextQuestionId) &&
        accounts == old(accounts) && nextAccountId == old(nextAccountId)
    {
      if fault.Some? {
        return Err(DatabaseQueryError(fault.value));
      }
      if !Owns(id, owner) {
        return Err(DatabaseQueryError(RowNotFound));
      }
      var updated := Question(QuestionId(id), q.title, q.content, q.tags);
      questions := questions[id := QuestionRow(updated, owner)];
      r := Ok(updated);
    }

    /** `delete_question`: `DELETE ... WHERE id = $1 AND account_id = $2`, which answers `true` whether or not a row went. */
    method DeleteQuestion(id: int32, owner: AccountId, fault: Option<SqlxError>) returns (r: Result<bool, Error>)
      requires Valid()
      modifies this
      ensures Valid()
      ensures fault.Some? ==> r == Err(DatabaseQueryError(fault.value)) && unchanged(this)
      ensures fault.None? ==> r == Ok(true)
      ensures fault.None? && !old(Owns(id, owner)) ==> unchanged(this)
      ensures fault.None? && old(Owns(id, owner)) ==>
        questions == old(questions) - {id} && order == RemoveKey(old(order), id) &&
        nextQuestionId == old(nextQuestionId) &&
        accounts == old(accounts) && nextAccountId == old(nextAccountId)
    {
      if fault.Some? {
        return Err(DatabaseQueryError(fault.value));
      }
      if Owns(id, owner) {
        RemoveKeyEnumerates(order, questions.Keys, id);
        questions := questions - {id};
        order := RemoveKey(order, id);
      }
      r := Ok(true);
    }

    /**
      `add_account`: `INSERT INTO accounts (email, password)`. The account's
      own id is not written; the row takes the next serial id, and an email
      already there violates the unique constraint. The serial default is
      computed before the unique index is consulted, so an exhausted
      sequence is reported ahead of a duplicate email.
     */
    method AddAccount(a: Account, fault: Option<SqlxError>) returns (r: Result<bool, Error>)
      requires Valid()
      modifies this
      ensures Valid()
      ensures fault.Some? ==> r == Err(DatabaseQueryError(fault.value))
      ensures fault.None? && old(nextAccountId) == TWO_TO_THE_31 ==>
        r == Err(DatabaseQueryError(Database(Some(SEQUENCE_EXHAUSTED))))
      ensures fault.None? && old(nextAccountId) < TWO_TO_THE_31 && a.email in old(accounts) ==>
        r == Err(DatabaseQueryError(Database(Some(UNIQUE_VIOLATION))))
      ensures r.Ok? <==> fault.None? && a.email !in old(accounts) && old(nextAccountId) < TWO_TO_THE_31
      ensures r.Err? ==> unchanged(this)
      ensures r.Ok? ==>
        r.value && fault.None? && a.email !in old(accounts) && old(nextAccountId) < TWO_TO_THE_31 &&
        accounts == old(accounts)[a.email := AccountRow(AccountId(old(nextAccountId)), a.password)] &&
        nextAccountId == old(nextAccountId) + 1 &&
        questions == old(questions) && order == old(order) && nextQuestionId == old(nextQuestionId)
    {
      if fault.Some? {
        return Err(DatabaseQueryError(fault.value));
      }
      if nextAccountId == TWO_TO_THE_31 {
        return Err(DatabaseQueryError(Database(Some(SEQUENCE_EXHAUSTED))));
      }
      if a.email in accounts {
        return Err(DatabaseQueryError(Database(Some(UNIQUE_VIOLATION))));
      }
      accounts := accounts[a.email := AccountRow(AccountId(nextAccountId), a.password)];
      nextAccountId := nextAccountId + 1;
      r := Ok(true);
    }
  }

  /**
    `update_question` as src/store.rs:74 writes its query: `WHERE id = $4
    AND account_id =$2`. The second parameter is the content, bound as text
    for `content = $2`, so the owner column (an integer) is compared with
    text; PostgreSQL finds no `integer = text` operator and refuses the
    statement. Every call fails, and no row changes. `Store.UpdateQuestion`
    is the query with the owner compared with the fifth parameter, as the
    binds intend.
   */
  function UpdateQuestionAsWritten(id: int32, q: Question, owner: AccountId, fault: Option<SqlxError>): (r: Result<Question, Error>)
    ensures r.Err?
    ensures fault.Some? ==> r.error == DatabaseQueryError(fault.value)
    ensures fault.None? ==> r.error == DatabaseQueryError(Database(Some(UNDEFINED_FUNCTION)))
  {
    if fault.Some? then Err(DatabaseQueryError(fault.value))
    else Err(DatabaseQueryError(Database(Some(UNDEFINED_FUNCTION))))
  }

  /** The refused update reaches the client as 500 "Database Query Error", whoever owns the row. */
  lemma UpdateAsWrittenIs500(id: int32, q: Question, owner: AccountId)
    ensures NoPanic(RejectCustom(UpdateQuestionAsWritten(id, q, owner, None).error))
    ensures ReturnError(RejectCustom(UpdateQuestionAsWritten(id, q, owner, None).error)) ==
      Ok(Response(INTERNAL_SERVER_ERROR, "Database Query Error"))
  {
    assert ParseU32(UNDEFINED_FUNCTION) == Ok(42883);
    DatabaseCodeResponse(UNDEFINED_FUNCTION, 42883);
  }

  /** A second account with the same email answers 422 "Account already exists". */
  lemma DuplicateEmailIs422()
    ensures ReturnError(RejectCustom(DatabaseQueryError(Database(Some(UNIQUE_VIOLATION))))) ==
      Ok(Response(UNPROCESSABLE_ENTITY, "Account already exists"))
  {
    DuplicateKeyCode();
  }

  /**
    A code PostgreSQL raises for a negative limit or offset is not a number,
    so `return_error` would panic at its `unwrap` on it.
   */
  lemma NegativeWindowCodesAreUnreadable()
    ensures !NoPanic(RejectCustom(DatabaseQueryError(Database(Some(NEGATIVE_OFFSET)))))
    ensures !NoPanic(RejectCustom(DatabaseQueryError(Database(Some(NEGATIVE_LIMIT)))))
  {
    assert !IsDigit('X') && !IsDigit('W');
    assert FindIndex(RejectCustom(DatabaseQueryError(Database(Some(NEGATIVE_OFFSET)))).causes, ErrorType) == Some(0);
    assert FindIndex(RejectCustom(DatabaseQueryError(Database(Some(NEGATIVE_LIMIT)))).causes, ErrorType) == Some(0);
  }
}

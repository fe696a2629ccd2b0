/**
 * The Express router for /transactions: the create route's own validation
 * chain in front of the service, the construction of `updateData`, and the
 * mapping of the service's tagged results onto HTTP statuses.
 *
 * The JavaScript built-ins it uses (`Number`, `parseFloat`, `Date.parse`)
 * are parameters; `toLowerCase` is the ASCII model of the Js module.
 */
module TransactionRoutes {
  import opened Wrappers
  import opened Js
  import opened Codes
  import opened TransactionSchema
  import opened TransactionService

  /** `Number(s)`, `parseFloat(s)` and `Date.parse(s)` on strings; an unparseable date is None. */
  datatype Builtins = Builtins(number: string -> Num, parseFloat: string -> Num, parseDate: string -> Option<int>)

  /** The `amount` of a JSON body: a string or a (finite) JSON number. */
  datatype BodyAmount = Text(s: string) | Numeric(v: real)

  /** The fields of `req.body` the routes read; None is an absent key. */
  datatype Body = Body(
    kind: Option<string>, amount: Option<BodyAmount>, category: Option<string>, description: Option<string>, date: Option<string>)

  /** A JSON answer: the status, its `message`, its `error` code and the data it carries. */
  datatype Reply<+T> = Reply(status: int, message: string, error: Option<Code>, payload: Option<T>)

  /** A handler's answer and the documents after it. */
  datatype RouteStep<+T> = RouteStep(reply: Reply<T>, docs: seq<Doc>)

  predicate AmountTruthy(a: Option<BodyAmount>) {
    match a
    case None => false
    case Some(Text(s)) => s != ""
    case Some(Numeric(v)) => v != 0.0
  }

  /** `Number(amount)`. */
  function NumberOf(a: BodyAmount, js: Builtins): Num {
    match a
    case Text(s) => js.number(s)
    case Numeric(v) => Finite(v)
  }

  /** `parseFloat(amount)`. */
  function ParseFloatOf(a: BodyAmount, js: Builtins): Num {
    match a
    case Text(s) => js.parseFloat(s)
    case Numeric(v) => Finite(v)
  }

  /** The 401 answer every route gives when the token gate left no user id. */
  function NotAuthenticated<T>(): Reply<T> {
    Reply(401, "User authentication failed", Some(UserNotAuthenticated), None)
  }

  // ---------------------------------------------------------------- POST /

  /** All six values truthy, description included (the service would default it). */
  predicate RouteFieldsPresent(userId: Option<string>, b: Body) {
    Truthy(userId) && AmountTruthy(b.amount) && Truthy(b.description) && Truthy(b.category) && Truthy(b.kind) && Truthy(b.date)
  }

  /**
   * The create route's checks in their order, and the arguments it passes
   * on: the type is compared lower-cased but passed as sent, the amount is
   * passed through `parseFloat`.
   */
  function CheckCreateRoute(userId: Option<string>, b: Body, js: Builtins): (r: Verdict<CreateRequest>)
    ensures r.Reject? && r.code == MissingFields <==> !RouteFieldsPresent(userId, b)
    ensures r.Reject? && r.code == InvalidAmount <==>
      RouteFieldsPresent(userId, b) && NumberOf(b.amount.value, js).NaN?
    ensures r.Reject? && r.code == InvalidType <==>
      RouteFieldsPresent(userId, b) && NumberOf(b.amount.value, js).Finite? && !IsKind(ToLower(b.kind.value))
    ensures r.Reject? && r.code == InvalidDate <==>
      && RouteFieldsPresent(userId, b) && NumberOf(b.amount.value, js).Finite? && IsKind(ToLower(b.kind.value))
      && js.parseDate(b.date.value).None?
    ensures r.Reject? ==> r.code in {MissingFields, InvalidAmount, InvalidType, InvalidDate}
    ensures r.Accept? ==>
      && r.value.userId == userId.value && r.value.kind == b.kind.value && IsKind(ToLower(r.value.kind))
      && r.value.amount == ParseFloatOf(b.amount.value, js) && r.value.category == b.category.value
      && r.value.description == b.description && r.value.date == b.date.value
  {
    if !RouteFieldsPresent(userId, b) then
      Reject("All fields (userId, amount, description, category, type, date) are required", MissingFields)
    else if NumberOf(b.amount.value, js).NaN? then
      Reject("Amount must be a valid number", InvalidAmount)
    else if !IsKind(ToLower(b.kind.value)) then
      Reject("Type must be either \"income\" or \"expense\"", InvalidType)
    else if js.parseDate(b.date.value).None? then
      Reject("Date must be in a valid format", InvalidDate)
    else
      Accept(CreateRequest(userId.value, b.kind.value, ParseFloatOf(b.amount.value, js), b.category.value,
                           Some(b.description.value), b.date.value))
  }

  /** POST /: 400 for a route check or a service failure (with the service's code), 201 on success. */
  function CreateRoute(docs: seq<Doc>, userId: Option<string>, b: Body, js: Builtins, newId: string, now: int,
                       fault: Option<StoreFault>): (s: RouteStep<()>)
    ensures s.reply.status in {201, 400} && s.reply.payload.None?
    ensures s.reply.status == 400 ==> s.docs == docs && s.reply.error.Some?
    ensures CheckCreateRoute(userId, b, js).Reject? ==>
      s == RouteStep(Reply(400, CheckCreateRoute(userId, b, js).message, Some(CheckCreateRoute(userId, b, js).code), None), docs)
    ensures CheckCreateRoute(userId, b, js).Accept? ==>
      var t := CreateStep(docs, CheckCreateRoute(userId, b, js).value, js.parseDate, newId, now, fault);
      && s.docs == t.docs
      && s.reply.message == t.result.message
      && (s.reply.status == 201 <==> t.result.Ok?)
      && (t.result.Fail? ==> s.reply.error == Some(t.result.code))
    ensures StoreInvariant(docs) && newId != "" && !HasId(docs, newId) ==> StoreInvariant(s.docs)
  {
    match CheckCreateRoute(userId, b, js)
    case Reject(message, code) => RouteStep(Reply(400, message, Some(code), None), docs)
    case Accept(q) =>
      var t := CreateStep(docs, q, js.parseDate, newId, now, fault);
      match t.result
      case Fail(message, code) => RouteStep(Reply(400, message, Some(code), None), t.docs)
      case Ok(message, _) => RouteStep(Reply(201, message, None, None), t.docs)
  }

  lemma UpperIncome()
    ensures ToLower("INCOME") == "income"
  {
    var r := ToLower("INCOME");
    assert r[0] == 'i' && r[1] == 'n' && r[2] == 'c' && r[3] == 'o' && r[4] == 'm' && r[5] == 'e';
  }

  /**
   * The route's type check `['income', 'expense'].includes(type.toLowerCase())`
   * accepts exactly the two words written in any mix of ASCII cases.
   */
  lemma RouteTypeCheckIgnoresCase(k: string)
    ensures IsKind(ToLower(k))
        <==> ((|k| == 6 && forall i :: 0 <= i < 6 ==> k[i] == "income"[i] || k[i] == "INCOME"[i])
              || (|k| == 7 && forall i :: 0 <= i < 7 ==> k[i] == "expense"[i] || k[i] == "EXPENSE"[i]))
  {
    ToLowerMatches(k, "income", "INCOME");
    ToLowerMatches(k, "expense", "EXPENSE");
  }

  /**
   * The route checks the type case-insensitively and passes it on as sent,
   * so "INCOME" clears the route and is then refused by the service's
   * exact comparison: the answer is 400 INVALID_TYPE and nothing is stored.
   */
  lemma UpperCaseTypeRefusedByService(docs: seq<Doc>, userId: Option<string>, b: Body, js: Builtins, newId: string,
                                      now: int, fault: Option<StoreFault>)
    requires b.kind == Some("INCOME")
    requires RouteFieldsPresent(userId, b)
    requires NumberOf(b.amount.value, js).Finite? && js.parseDate(b.date.value).Some?
    requires ParseFloatOf(b.amount.value, js).Finite? && ParseFloatOf(b.amount.value, js).v > 0.0
    ensures CheckCreateRoute(userId, b, js).Accept?
    ensures CreateRoute(docs, userId, b, js, newId, now, fault)
         == RouteStep(Reply(400, "Type must be either \"income\" or \"expense\"", Some(InvalidType), None), docs)
  {
    UpperIncome();
  }

  // ---------------------------------------------------------------- GET /

  /** GET /: 401 without a user id, the service's failure as 400, else 200 with the owner's documents newest first. */
  function ListRoute(docs: seq<Doc>, userId: Option<string>, fault: Option<StoreFault>): (r: Reply<seq<Doc>>)
    ensures !Truthy(userId) ==> r == NotAuthenticated()
    ensures Truthy(userId) && fault.Some? ==> r == Reply(400, "Failed to fetch transactions", Some(ServerError), None)
    ensures r.status == 200 <==> Truthy(userId) && fault.None?
    ensures r.status == 200 ==>
      && r.payload.Some? && Sorting.NewestFirst(r.payload.value, DateOf)
      && multiset(r.payload.value) == multiset(Owned(docs, userId.value))
      && forall d :: d in r.payload.value <==> d in docs && d.tx.userId == userId.value
  {
    if !Truthy(userId) then NotAuthenticated()
    else match ListStep(docs, userId.value, fault)
      case Fail(message, code) => Reply(400, message, Some(code), None)
      case Ok(message, transactions) => Reply(200, message, None, Some(transactions))
  }

  // ---------------------------------------------------------------- PUT /:id

  /** The `updateData` object: the body fields that are defined, the amount through `parseFloat`. */
  function UpdateDataOf(b: Body, js: Builtins): UpdateData {
    UpdateData(b.kind, if b.amount.Some? then Some(ParseFloatOf(b.amount.value, js)) else None,
               b.category, b.description, b.date)
  }

  /** Builds `updateData` one defined field at a time. */
  method BuildUpdateData(b: Body, js: Builtins) returns (u: UpdateData)
    ensures u.kind == b.kind && u.category == b.category && u.description == b.description && u.date == b.date
    ensures u.amount.Some? <==> b.amount.Some?
    ensures b.amount.Some? ==> u.amount == Some(ParseFloatOf(b.amount.value, js))
    ensures u == UpdateDataOf(b, js)
  {
    u := UpdateData(None, None, None, None, None);
    if b.kind.Some? {
      u := u.(kind := b.kind);
    }
    if b.amount.Some? {
      u := u.(amount := Some(ParseFloatOf(b.amount.value, js)));
    }
    if b.category.Some? {
      u := u.(category := b.category);
    }
    if b.description.Some? {
      u := u.(description := b.description);
    }
    if b.date.Some? {
      u := u.(date := b.date);
    }
  }

  /** PUT /:id: 401 without a user id, the service's failure as 400, else 200 with the updated document. */
  function UpdateRoute(docs: seq<Doc>, id: string, userId: Option<string>, b: Body, js: Builtins, now: int,
                       lookupFault: Option<StoreFault>, writeFault: Option<StoreFault>): (s: RouteStep<Doc>)
    ensures !Truthy(userId) ==> s == RouteStep(NotAuthenticated(), docs)
    ensures s.reply.status in {200, 400, 401}
    ensures s.reply.status != 200 ==> s.docs == docs
    ensures Truthy(userId) ==>
      var t := UpdateStep(docs, id, userId.value, UpdateDataOf(b, js), js.parseDate, now, lookupFault, writeFault);
      && s.docs == t.docs && s.reply.message == t.result.message
      && (s.reply.status == 200 <==> t.result.Ok?)
      && (t.result.Ok? ==> s.reply.payload == Some(t.result.value))
      && (t.result.Fail? ==> s.reply.error == Some(t.result.code))
    ensures StoreInvariant(docs) ==> StoreInvariant(s.docs)
  {
    if !Truthy(userId) then RouteStep(NotAuthenticated(), docs)
    else
      var t := UpdateStep(docs, id, userId.value, UpdateDataOf(b, js), js.parseDate, now, lookupFault, writeFault);
      match t.result
      case Fail(message, code) => RouteStep(Reply(400, message, Some(code), None), t.docs)
      case Ok(message, d) => RouteStep(Reply(200, message, None, Some(d)), t.docs)
  }

  /**
   * A successful update through the route changes only the matched
   * document, and in it only the fields the body carries (and updatedAt):
   * the owner, the creation time and every absent field stay.
   */
  lemma UpdateRouteChangesOnlySentFields(docs: seq<Doc>, id: string, userId: Option<string>, b: Body, js: Builtins,
                                         now: int, lookupFault: Option<StoreFault>, writeFault: Option<StoreFault>)
    requires UpdateRoute(docs, id, userId, b, js, now, lookupFault, writeFault).reply.status == 200
    ensures Truthy(userId) && FindOwned(docs, id, userId.value).Some?
    ensures var i := FindOwned(docs, id, userId.value).value;
      var s := UpdateRoute(docs, id, userId, b, js, now, lookupFault, writeFault).docs;
      && |s| == |docs| && (forall k :: 0 <= k < |docs| && k != i ==> s[k] == docs[k])
      && s[i].id == docs[i].id && s[i].tx.userId == docs[i].tx.userId
      && s[i].tx.createdAt == docs[i].tx.createdAt && s[i].tx.updatedAt == now
      && (b.kind.None? ==> s[i].tx.kind == docs[i].tx.kind)
      && (b.amount.None? ==> s[i].tx.amount == docs[i].tx.amount)
      && (b.category.None? ==> s[i].tx.category == docs[i].tx.category)
      && (b.description.None? ==> s[i].tx.description == docs[i].tx.description)
      && (b.date.None? ==> s[i].tx.date == docs[i].tx.date)
  {
    var u := UpdateDataOf(b, js);
    var t := UpdateStep(docs, id, userId.value, u, js.parseDate, now, lookupFault, writeFault);
    assert t.result.Ok?;
    var i := FindOwned(docs, id, userId.value).value;
    var p := SanitizePatch(u, js.parseDate).value;
    assert t.docs == docs[i := Doc(id, ApplyPatch(docs[i].tx, p, now))];
  }

  // ---------------------------------------------------------------- DELETE /:id

  /** DELETE /:id: 401 without a user id, the service's failure as 400, else 200. */
  function DeleteRoute(docs: seq<Doc>, id: string, userId: Option<string>, fault: Option<StoreFault>): (s: RouteStep<()>)
    ensures !Truthy(userId) ==> s == RouteStep(NotAuthenticated(), docs)
    ensures s.reply.status in {200, 400, 401} && s.reply.payload.None?
    ensures s.reply.status != 200 ==> s.docs == docs
    ensures Truthy(userId) ==>
      var t := DeleteStep(docs, id, userId.value, fault);
      && s.docs == t.docs && s.reply.message == t.result.message
      && (s.reply.status == 200 <==> t.result.Ok?)
      && (t.result.Fail? ==> s.reply.error == Some(t.result.code))
    ensures StoreInvariant(docs) ==> StoreInvariant(s.docs)
  {
    if !Truthy(userId) then RouteStep(NotAuthenticated(), docs)
    else
      var t := DeleteStep(docs, id, userId.value, fault);
      match t.result
      case Fail(message, code) => RouteStep(Reply(400, message, Some(code), None), t.docs)
      case Ok(message, _) => RouteStep(Reply(200, message, None, None), t.docs)
  }

  // ---------------------------------------------------------------- the handlers

  /** The handlers, run against one store. */
  method PostTransaction(store: TransactionStore, userId: Option<string>, b: Body, js: Builtins, newId: string,
                         now: int, fault: Option<StoreFault>) returns (reply: Reply<()>)
    requires store.Valid() && newId != "" && !HasId(store.docs, newId)
    modifies store
    ensures store.Valid()
    ensures RouteStep(reply, store.docs) == CreateRoute(old(store.docs), userId, b, js, newId, now, fault)
  {
    var checked := CheckCreateRoute(userId, b, js);
    if checked.Reject? {
      return Reply(400, checked.message, Some(checked.code), None);
    }
    var result := store.CreateTransaction(checked.value, js.parseDate, newId, now, fault);
    if result.Fail? {
      return Reply(400, result.message, Some(result.code), None);
    }
    reply := Reply(201, result.message, None, None);
  }

  method GetTransactions(store: TransactionStore, userId: Option<string>, fault: Option<StoreFault>)
    returns (reply: Reply<seq<Doc>>)
    ensures reply == ListRoute(store.docs, userId, fault)
  {
    if !Truthy(userId) {
      return NotAuthenticated();
    }
    var result := store.GetUserTransactions(userId.value, fault);
    if result.Fail? {
      return Reply(400, result.message, Some(result.code), None);
    }
    reply := Reply(200, result.message, None, Some(result.value));
  }

  method PutTransaction(store: TransactionStore, id: string, userId: Option<string>, b: Body, js: Builtins, now: int,
                        lookupFault: Option<StoreFault>, writeFault: Option<StoreFault>) returns (reply: Reply<Doc>)
    requires store.Valid()
    modifies store
    ensures store.Valid()
    ensures RouteStep(reply, store.docs) == UpdateRoute(old(store.docs), id, userId, b, js, now, lookupFault, writeFault)
  {
    if !Truthy(userId) {
      return NotAuthenticated();
    }
    var updateData := BuildUpdateData(b, js);
    var result := store.UpdateTransaction(id, userId.value, updateData, js.parseDate, now, lookupFault, writeFault);
    if result.Fail? {
      return Reply(400, result.message, Some(result.code), None);
    }
    reply := Reply(200, result.message, None, Some(result.value));
  }

  method DeleteTransactionRoute(store: TransactionStore, id: string, userId: Option<string>, fault: Option<StoreFault>)
    returns (reply: Reply<()>)
    requires store.Valid()
    modifies store
    ensures store.Valid()
    ensures RouteStep(reply, store.docs) == DeleteRoute(old(store.docs), id, userId, fault)
  {
    if !Truthy(userId) {
      return NotAuthenticated();
    }
    var result := store.DeleteTransaction(id, userId.value, fault);
    if result.Fail? {
      return Reply(400, result.message, Some(result.code), None);
    }
    reply := Reply(200, result.message, None, None);
  }
}

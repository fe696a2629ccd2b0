/**
 * The transaction service: create, list, update and delete over the
 * Transaction collection, every lookup scoped to the owner.
 *
 * The collection is a sequence of documents in insertion order (MongoDB's
 * natural order). Store faults are inputs: each store call is given the
 * fault it throws, if any. The parsing of date strings (`new Date(s)`) is a
 * parameter giving a timestamp or nothing for an invalid date.
 *
 * Each operation is specified by a step function from the old documents to
 * the result and the new documents; `TransactionStore` runs the same
 * operations imperatively on its `docs` field and is proved to agree.
 */
module TransactionService {
  import opened Wrappers
  import opened Js
  import opened Codes
  import opened TransactionSchema
  import Sorting

  /** A stored document: the store-assigned `_id` and the record. */
  datatype Doc = Doc(id: string, tx: Transaction)

  function DateOf(d: Doc): int {
    d.tx.date
  }

  /** The arguments of createTransaction; `description` is None when the caller passes none. */
  datatype CreateRequest = CreateRequest(
    userId: string, kind: string, amount: Num, category: string, description: Option<string>, date: string)

  /** The partial `updateData` of updateTransaction; None is an absent key. */
  datatype UpdateData = UpdateData(
    kind: Option<string>, amount: Option<Num>, category: Option<string>, description: Option<string>, date: Option<string>)

  /** `safeUpdateData`: the fields that survived sanitising, dates parsed; None is an absent key. */
  datatype Patch = Patch(
    kind: Option<string>, amount: Option<Num>, category: Option<string>, description: Option<string>, date: Option<int>)

  /** A service call's result and the documents after it. */
  datatype Step<+T> = Step(result: ServiceResult<T>, docs: seq<Doc>)

  // ---------------------------------------------------------------- the store

  predicate HasId(docs: seq<Doc>, id: string) {
    exists i :: 0 <= i < |docs| && docs[i].id == id
  }

  ghost predicate DistinctIds(docs: seq<Doc>) {
    forall i, j :: 0 <= i < j < |docs| ==> docs[i].id != docs[j].id
  }

  /** What every record written through this service satisfies: the schema, and a positive amount. */
  predicate WellFormed(t: Transaction) {
    SchemaValid(t) && t.amount > 0.0
  }

  ghost predicate StoreInvariant(docs: seq<Doc>) {
    DistinctIds(docs) && forall i :: 0 <= i < |docs| ==> docs[i].id != "" && WellFormed(docs[i].tx)
  }

  /** `find({ userId })`: the owner's documents, in natural order. */
  function Owned(docs: seq<Doc>, userId: string): seq<Doc>
  {
    if docs == [] then []
    else (if docs[0].tx.userId == userId then [docs[0]] else []) + Owned(docs[1..], userId)
  }

  /** The listing holds exactly the documents of that owner. */
  lemma {:induction false} OwnedMembers(docs: seq<Doc>, userId: string)
    ensures forall d :: d in Owned(docs, userId) <==> d in docs && d.tx.userId == userId
    decreases |docs|
  {
    if docs != [] {
      OwnedMembers(docs[1..], userId);
      assert docs == [docs[0]] + docs[1..];
    }
  }

  lemma {:induction false} OwnedAppend(a: seq<Doc>, b: seq<Doc>, userId: string)
    ensures Owned(a + b, userId) == Owned(a, userId) + Owned(b, userId)
    decreases |a|
  {
    if a == [] {
      assert a + b == b;
    } else {
      OwnedAppend(a[1..], b, userId);
      assert (a + b)[0] == a[0];
      assert (a + b)[1..] == a[1..] + b;
    }
  }

  /** Replacing a document that is another user's by another of theirs leaves a user's listing alone. */
  lemma OwnedReplace(docs: seq<Doc>, i: nat, d: Doc, userId: string)
    requires i < |docs| && docs[i].tx.userId != userId && d.tx.userId != userId
    ensures Owned(docs[i := d], userId) == Owned(docs, userId)
  {
    assert docs == docs[..i] + [docs[i]] + docs[i + 1..];
    assert docs[i := d] == docs[..i] + [d] + docs[i + 1..];
    OwnedAppend(docs[..i] + [docs[i]], docs[i + 1..], userId);
    OwnedAppend(docs[..i], [docs[i]], userId);
    OwnedAppend(docs[..i] + [d], docs[i + 1..], userId);
    OwnedAppend(docs[..i], [d], userId);
  }

  /** Removing another user's document leaves a user's listing alone. */
  lemma OwnedRemove(docs: seq<Doc>, i: nat, userId: string)
    requires i < |docs| && docs[i].tx.userId != userId
    ensures Owned(docs[..i] + docs[i + 1..], userId) == Owned(docs, userId)
  {
    assert docs == docs[..i] + ([docs[i]] + docs[i + 1..]);
    OwnedAppend(docs[..i], [docs[i]] + docs[i + 1..], userId);
    OwnedAppend([docs[i]], docs[i + 1..], userId);
    assert Owned([docs[i]], userId) == [];
    OwnedAppend(docs[..i], docs[i + 1..], userId);
  }

  /**
   * `findOne({ _id: id, userId })`: the position of the document with this id
   * AND this owner. A document of another owner is not found.
   */
  function FindOwned(docs: seq<Doc>, id: string, userId: string): (r: Option<nat>)
    ensures r.Some? ==> r.value < |docs| && docs[r.value].id == id && docs[r.value].tx.userId == userId
    ensures r.None? <==> forall i :: 0 <= i < |docs| ==> !(docs[i].id == id && docs[i].tx.userId == userId)
  {
    if docs == [] then None
    else if docs[0].id == id && docs[0].tx.userId == userId then Some(0)
    else
      match FindOwned(docs[1..], id, userId)
      case None =>
        assert forall i :: 1 <= i < |docs| ==> docs[i] == docs[1..][i - 1];
        None
      case Some(k) => Some(k + 1)
  }

  /** An id that exists only under another owner behaves exactly like an id that does not exist. */
  lemma ForeignIsNotFound(docs: seq<Doc>, id: string, userId: string, i: nat)
    requires DistinctIds(docs)
    requires i < |docs| && docs[i].id == id && docs[i].tx.userId != userId
    ensures FindOwned(docs, id, userId) == None
    ensures FindOwned(docs[..i] + docs[i + 1..], id, userId) == None
  {
    var rest := docs[..i] + docs[i + 1..];
    forall k | 0 <= k < |rest| ensures rest[k].id != id {
      if k < i {
        assert rest[k] == docs[k];
      } else {
        assert rest[k] == docs[k + 1];
      }
    }
  }

  // ---------------------------------------------------------------- create

  predicate FieldsPresent(q: CreateRequest) {
    q.userId != "" && q.kind != "" && NumTruthy(q.amount) && q.category != "" && q.date != ""
  }

  /**
   * The checks of createTransaction in their order, and the document it
   * builds: missing fields (a falsy argument; an amount of 0 or NaN is
   * missing), then a non-positive amount, then a type other than exactly
   * "income" or "expense", then an invalid date.
   */
  function CheckCreate(q: CreateRequest, parseDate: string -> Option<int>, now: int): (r: Verdict<Transaction>)
    ensures r.Reject? && r.code == MissingFields <==> !FieldsPresent(q)
    ensures r.Reject? && r.code == InvalidAmount <==> FieldsPresent(q) && q.amount.v <= 0.0
    ensures r.Reject? && r.code == InvalidType <==> FieldsPresent(q) && q.amount.v > 0.0 && !IsKind(q.kind)
    ensures r.Reject? && r.code == InvalidDate
        <==> FieldsPresent(q) && q.amount.v > 0.0 && IsKind(q.kind) && parseDate(q.date).None?
    ensures r.Reject? ==> r.code in {MissingFields, InvalidAmount, InvalidType, InvalidDate}
    ensures r.Accept? ==> WellFormed(r.value)
    ensures r.Accept? ==> && r.value.userId == q.userId && r.value.kind == q.kind && r.value.amount == q.amount.v
                          && r.value.category == q.category && Some(r.value.date) == parseDate(q.date)
                          && r.value.description == (if q.description.Some? then q.description.value else "")
                          && r.value.createdAt == now && r.value.updatedAt == now
  {
    if !FieldsPresent(q) then
      Reject("All fields (type, amount, category, date) are required", MissingFields)
    else if q.amount.v <= 0.0 then
      Reject("Amount must be greater than 0", InvalidAmount)
    else if !IsKind(q.kind) then
      Reject("Type must be either \"income\" or \"expense\"", InvalidType)
    else
      match parseDate(q.date)
      case None => Reject("Invalid date format", InvalidDate)
      case Some(date) =>
        Accept(Transaction(q.userId, q.kind, q.amount.v, q.category, q.description.GetOr(""), date, now, now))
  }

  /** The catch block of createTransaction. */
  function CreateFault<T>(f: StoreFault): (r: ServiceResult<T>)
    ensures r.Fail?
    ensures r.code == ValidationError <==> f == SchemaRejected
    ensures r.code == InvalidDataFormat <==> f == CastFailed
    ensures r.code == ServerError <==> f == DuplicateKey || f == OtherFault
  {
    match f
    case SchemaRejected => Fail("Validation failed", ValidationError)
    case CastFailed => Fail("Invalid data format", InvalidDataFormat)
    case _ => Fail("Internal server error occurred", ServerError)
  }

  /** createTransaction: the checks, then `save()` of the new document under the fresh id `newId`. */
  function CreateStep(docs: seq<Doc>, q: CreateRequest, parseDate: string -> Option<int>,
                      newId: string, now: int, fault: Option<StoreFault>): (s: Step<Doc>)
    ensures s.result.Fail? ==> s.docs == docs
    ensures CheckCreate(q, parseDate, now).Reject? ==>
      s.result == Fail(CheckCreate(q, parseDate, now).message, CheckCreate(q, parseDate, now).code)
    ensures CheckCreate(q, parseDate, now).Accept? && fault == Some(SchemaRejected) ==>
      s.result == Fail("Validation failed", ValidationError)
    ensures CheckCreate(q, parseDate, now).Accept? && fault == Some(CastFailed) ==>
      s.result == Fail("Invalid data format", InvalidDataFormat)
    ensures CheckCreate(q, parseDate, now).Accept? && fault.Some? && fault.value !in {SchemaRejected, CastFailed} ==>
      s.result == Fail("Internal server error occurred", ServerError)
    ensures s.result.Ok? <==> CheckCreate(q, parseDate, now).Accept? && fault.None?
    ensures s.result.Ok? ==>
      && s.result.value == Doc(newId, CheckCreate(q, parseDate, now).value)
      && s.docs == docs + [s.result.value]
    ensures s.result.Ok? ==> Owned(s.docs, q.userId) == Owned(docs, q.userId) + [s.result.value]
    ensures forall v :: v != q.userId ==> Owned(s.docs, v) == Owned(docs, v)
    ensures StoreInvariant(docs) && newId != "" && !HasId(docs, newId) ==> StoreInvariant(s.docs)
  {
    match CheckCreate(q, parseDate, now)
    case Reject(message, code) => Step(Fail(message, code), docs)
    case Accept(t) =>
      if fault.Some? then Step(CreateFault(fault.value), docs)
      else
        var d := Doc(newId, t);
        OwnedAppend(docs, [d], q.userId);
        forall v | v != q.userId ensures Owned(docs + [d], v) == Owned(docs, v) {
          OwnedAppend(docs, [d], v);
        }
        Step(Ok("Transaction created successfully", d), docs + [d])
  }

  // ---------------------------------------------------------------- list

  /** getUserTransactions: the owner's documents, newest date first. */
  function ListStep(docs: seq<Doc>, userId: string, fault: Option<StoreFault>): (r: ServiceResult<seq<Doc>>)
    ensures fault.Some? ==> r == Fail("Failed to fetch transactions", ServerError)
    ensures fault.None? ==> r.Ok? && r.message == "Transactions fetched successfully"
    ensures r.Ok? ==> Sorting.NewestFirst(r.value, DateOf)
    ensures r.Ok? ==> multiset(r.value) == multiset(Owned(docs, userId))
    ensures r.Ok? ==> forall d :: d in r.value <==> d in docs && d.tx.userId == userId
  {
    if fault.Some? then Fail("Failed to fetch transactions", ServerError)
    else
      var owned := Owned(docs, userId);
      OwnedMembers(docs, userId);
      var sorted := Sorting.SortNewestFirst(owned, DateOf);
      assert forall d :: d in sorted <==> d in multiset(owned);
      Ok("Transactions fetched successfully", sorted)
  }

  // ---------------------------------------------------------------- update

  /** A defined amount that is rejected: `amount <= 0` (false for NaN). */
  predicate NonPositive(a: Option<Num>) {
    a.Some? && a.value.Finite? && a.value.v <= 0.0
  }

  /**
   * The construction of `safeUpdateData`: a type other than "income" or
   * "expense" is dropped, an empty category is dropped, a defined
   * description (even "") is kept, a non-positive amount is an error, a
   * truthy but unparseable date is an error (the amount is checked first).
   */
  function SanitizePatch(u: UpdateData, parseDate: string -> Option<int>): (r: Verdict<Patch>)
    ensures r.Reject? ==> (r == Reject("Amount must be greater than 0", InvalidAmount)
                           || r == Reject("Invalid date format", InvalidDate))
    ensures r.Reject? && r.code == InvalidAmount <==> NonPositive(u.amount)
    ensures r.Reject? && r.code == InvalidDate
        <==> !NonPositive(u.amount) && Truthy(u.date) && parseDate(u.date.value).None?
    ensures r.Accept? ==> (r.value.kind.Some? <==> u.kind.Some? && IsKind(u.kind.value))
    ensures r.Accept? && r.value.kind.Some? ==> r.value.kind == u.kind
    ensures r.Accept? ==> r.value.amount == u.amount && r.value.description == u.description
    ensures r.Accept? ==> r.value.category == (if Truthy(u.category) then u.category else None)
    ensures r.Accept? ==> (r.value.date.Some? <==> Truthy(u.date))
    ensures r.Accept? && r.value.date.Some? ==> r.value.date == parseDate(u.date.value)
    ensures r.Accept? ==>
      (IsEmptyPatch(r.value) <==>
         !(u.kind.Some? && IsKind(u.kind.value)) && u.amount.None? && !Truthy(u.category)
         && u.description.None? && !Truthy(u.date))
  {
    var kind := if u.kind.Some? && IsKind(u.kind.value) then u.kind else None;
    if NonPositive(u.amount) then
      Reject("Amount must be greater than 0", InvalidAmount)
    else
      var category := if Truthy(u.category) then u.category else None;
      if Truthy(u.date) && parseDate(u.date.value).None? then
        Reject("Invalid date format", InvalidDate)
      else
        var date := if Truthy(u.date) then parseDate(u.date.value) else None;
        Accept(Patch(kind, u.amount, category, u.description, date))
  }

  /** An invalid type in an update is dropped silently: it is the same as sending no type. */
  lemma InvalidKindDropped(u: UpdateData, k: string, parseDate: string -> Option<int>)
    requires !IsKind(k)
    ensures SanitizePatch(u.(kind := Some(k)), parseDate) == SanitizePatch(u.(kind := None), parseDate)
  {
  }

  /** An empty category in an update is the same as sending no category. */
  lemma EmptyCategoryDropped(u: UpdateData, parseDate: string -> Option<int>)
    ensures SanitizePatch(u.(category := Some("")), parseDate) == SanitizePatch(u.(category := None), parseDate)
  {
  }

  predicate IsEmptyPatch(p: Patch) {
    p.kind.None? && p.amount.None? && p.category.None? && p.description.None? && p.date.None?
  }

  /** A patch the store can cast: MongoDB's Number cast refuses NaN. */
  predicate Castable(p: Patch) {
    p.amount.None? || p.amount.value.Finite?
  }

  /** `$set: safeUpdateData` on a record; the store refreshes `updatedAt`. */
  function ApplyPatch(t: Transaction, p: Patch, now: int): (r: Transaction)
    requires Castable(p)
    ensures r.userId == t.userId && r.createdAt == t.createdAt && r.updatedAt == now
    ensures p.kind.Some? ==> r.kind == p.kind.value
    ensures p.amount.Some? ==> r.amount == p.amount.value.v
    ensures p.category.Some? ==> r.category == p.category.value
    ensures p.description.Some? ==> r.description == p.description.value
    ensures p.date.Some? ==> r.date == p.date.value
    ensures p.kind.None? ==> r.kind == t.kind
    ensures p.amount.None? ==> r.amount == t.amount
    ensures p.category.None? ==> r.category == t.category
    ensures p.description.None? ==> r.description == t.description
    ensures p.date.None? ==> r.date == t.date
    ensures IsEmptyPatch(p) ==> r == t.(updatedAt := now)
  {
    t.(kind := p.kind.GetOr(t.kind),
       amount := if p.amount.Some? then p.amount.value.v else t.amount,
       category := p.category.GetOr(t.category),
       description := p.description.GetOr(t.description),
       date := p.date.GetOr(t.date),
       updatedAt := now)
  }

  /** A sanitised patch keeps a well-formed record well-formed, and changes only the fields it carries. */
  lemma SanitizedPatchKeepsWellFormed(t: Transaction, u: UpdateData, parseDate: string -> Option<int>, now: int)
    requires WellFormed(t)
    requires SanitizePatch(u, parseDate).Accept? && Castable(SanitizePatch(u, parseDate).value)
    ensures var p := SanitizePatch(u, parseDate).value;
      && WellFormed(ApplyPatch(t, p, now))
      && (p.kind.None? ==> ApplyPatch(t, p, now).kind == t.kind)
      && (p.amount.None? ==> ApplyPatch(t, p, now).amount == t.amount)
      && (p.category.None? ==> ApplyPatch(t, p, now).category == t.category)
      && (p.description.None? ==> ApplyPatch(t, p, now).description == t.description)
      && (p.date.None? ==> ApplyPatch(t, p, now).date == t.date)
  {
  }

  /** The catch block of updateTransaction. */
  function UpdateFault<T>(f: StoreFault): (r: ServiceResult<T>)
    ensures r.Fail?
    ensures r.code == ValidationError <==> f == SchemaRejected
    ensures r.code == InvalidIdFormat <==> f == CastFailed
    ensures r.code == ServerError <==> f == DuplicateKey || f == OtherFault
  {
    match f
    case SchemaRejected => Fail("Validation failed", ValidationError)
    case CastFailed => Fail("Invalid transaction ID format", InvalidIdFormat)
    case _ => Fail("Internal server error", ServerError)
  }

  /**
   * updateTransaction: the id check, the owner-scoped `findOne` (which may
   * throw `lookupFault`), the sanitised patch, the empty-patch check, and
   * `findOneAndUpdate` (which may throw `writeFault`, and throws a cast
   * error for a NaN amount).
   */
  function UpdateStep(docs: seq<Doc>, id: string, userId: string, u: UpdateData, parseDate: string -> Option<int>,
                      now: int, lookupFault: Option<StoreFault>, writeFault: Option<StoreFault>): (s: Step<Doc>)
    ensures s.result.Fail? ==> s.docs == docs
    ensures s.result.Ok? <==>
      && id != "" && userId != "" && lookupFault.None? && FindOwned(docs, id, userId).Some?
      && SanitizePatch(u, parseDate).Accept? && !IsEmptyPatch(SanitizePatch(u, parseDate).value)
      && Castable(SanitizePatch(u, parseDate).value) && writeFault.None?
    ensures id == "" || userId == "" ==> s.result == Fail("Transaction ID and User ID are required", MissingFields)
    ensures id != "" && userId != "" && lookupFault.Some? ==> s.result == UpdateFault(lookupFault.value)
    ensures id != "" && userId != "" && lookupFault == Some(CastFailed) ==>
      s.result == Fail("Invalid transaction ID format", InvalidIdFormat)
    ensures id != "" && userId != "" && lookupFault.None? && FindOwned(docs, id, userId).None? ==>
      s.result == Fail("Transaction not found or unauthorized", TransactionNotFound)
    ensures && id != "" && userId != "" && lookupFault.None? && FindOwned(docs, id, userId).Some?
            && SanitizePatch(u, parseDate).Reject? ==>
      s.result == Fail(SanitizePatch(u, parseDate).message, SanitizePatch(u, parseDate).code)
    ensures && id != "" && userId != "" && lookupFault.None? && FindOwned(docs, id, userId).Some?
            && SanitizePatch(u, parseDate).Accept? && !IsEmptyPatch(SanitizePatch(u, parseDate).value)
            && !Castable(SanitizePatch(u, parseDate).value) ==>
      s.result == Fail("Invalid transaction ID format", InvalidIdFormat)
    ensures && id != "" && userId != "" && lookupFault.None? && FindOwned(docs, id, userId).Some?
            && SanitizePatch(u, parseDate).Accept? && !IsEmptyPatch(SanitizePatch(u, parseDate).value)
            && Castable(SanitizePatch(u, parseDate).value) && writeFault.Some? ==>
      s.result == UpdateFault(writeFault.value)
    ensures s.result.Fail? && s.result.code in {InvalidAmount, InvalidDate, EmptyUpdate} ==>
      FindOwned(docs, id, userId).Some?
    ensures s.result.Fail? && s.result.code == EmptyUpdate <==>
      && id != "" && userId != "" && lookupFault.None? && FindOwned(docs, id, userId).Some?
      && SanitizePatch(u, parseDate).Accept? && IsEmptyPatch(SanitizePatch(u, parseDate).value)
    ensures s.result.Ok? ==>
      && FindOwned(docs, id, userId).Some? && SanitizePatch(u, parseDate).Accept?
      && var i := FindOwned(docs, id, userId).value;
         var p := SanitizePatch(u, parseDate).value;
         && !IsEmptyPatch(p) && Castable(p) && writeFault.None?
         && s.result.value == Doc(id, ApplyPatch(docs[i].tx, p, now))
         && s.docs == docs[i := s.result.value]
    ensures s.result.Ok? ==> s.result.value.id == id && s.result.value.tx.userId == userId
    ensures forall v :: v != userId ==> Owned(s.docs, v) == Owned(docs, v)
    ensures StoreInvariant(docs) ==> StoreInvariant(s.docs)
  {
    if id == "" || userId == "" then
      Step(Fail("Transaction ID and User ID are required", MissingFields), docs)
    else if lookupFault.Some? then
      Step(UpdateFault(lookupFault.value), docs)
    else
      match FindOwned(docs, id, userId)
      case None => Step(Fail("Transaction not found or unauthorized", TransactionNotFound), docs)
      case Some(i) =>
        match SanitizePatch(u, parseDate)
        case Reject(message, code) => Step(Fail(message, code), docs)
        case Accept(p) =>
          if IsEmptyPatch(p) then Step(Fail("No valid fields to update", EmptyUpdate), docs)
          else if !Castable(p) then Step(UpdateFault(CastFailed), docs)
          else if writeFault.Some? then Step(UpdateFault(writeFault.value), docs)
          else
            var d := Doc(id, ApplyPatch(docs[i].tx, p, now));
            forall v | v != userId ensures Owned(docs[i := d], v) == Owned(docs, v) {
              OwnedReplace(docs, i, d, v);
            }
            ReplacePreserves(docs, i, u, parseDate, now);
            Step(Ok("Transaction updated successfully", d), docs[i := d])
  }

  lemma ReplacePreserves(docs: seq<Doc>, i: nat, u: UpdateData, parseDate: string -> Option<int>, now: int)
    requires i < |docs|
    requires SanitizePatch(u, parseDate).Accept? && Castable(SanitizePatch(u, parseDate).value)
    ensures StoreInvariant(docs) ==>
      StoreInvariant(docs[i := Doc(docs[i].id, ApplyPatch(docs[i].tx, SanitizePatch(u, parseDate).value, now))])
  {
    if StoreInvariant(docs) {
      SanitizedPatchKeepsWellFormed(docs[i].tx, u, parseDate, now);
    }
  }

  // ---------------------------------------------------------------- delete

  /** The catch block of deleteTransaction: only a cast error has its own code. */
  function DeleteFault<T>(f: StoreFault): (r: ServiceResult<T>)
    ensures r.Fail?
    ensures r.code == InvalidIdFormat <==> f == CastFailed
    ensures r.code == ServerError <==> f != CastFailed
  {
    match f
    case CastFailed => Fail("Invalid transaction ID format", InvalidIdFormat)
    case _ => Fail("Internal server error occurred", ServerError)
  }

  /** deleteTransaction: the id check, then `findOneAndDelete({ _id: id, userId })`. */
  function DeleteStep(docs: seq<Doc>, id: string, userId: string, fault: Option<StoreFault>): (s: Step<()>)
    ensures s.result.Fail? ==> s.docs == docs
    ensures id == "" || userId == "" ==> s.result == Fail("Transaction ID and User ID are required", MissingFields)
    ensures id != "" && userId != "" && fault == Some(CastFailed) ==>
      s.result == Fail("Invalid transaction ID format", InvalidIdFormat)
    ensures id != "" && userId != "" && fault.Some? && fault.value != CastFailed ==>
      s.result == Fail("Internal server error occurred", ServerError)
    ensures id != "" && userId != "" && fault.None? ==>
      (s.result.Ok? <==> FindOwned(docs, id, userId).Some?)
    ensures s.result.Fail? && s.result.code == TransactionNotFound <==>
      id != "" && userId != "" && fault.None? && FindOwned(docs, id, userId).None?
    ensures s.result.Ok? ==>
      var i := FindOwned(docs, id, userId).value; s.docs == docs[..i] + docs[i + 1..]
    ensures s.result.Ok? && DistinctIds(docs) ==> forall d :: d in s.docs <==> d in docs && d.id != id
    ensures forall v :: v != userId ==> Owned(s.docs, v) == Owned(docs, v)
    ensures StoreInvariant(docs) ==> StoreInvariant(s.docs)
  {
    if id == "" || userId == "" then
      Step(Fail("Transaction ID and User ID are required", MissingFields), docs)
    else if fault.Some? then
      Step(DeleteFault(fault.value), docs)
    else
      match FindOwned(docs, id, userId)
      case None => Step(Fail("Transaction not found or unauthorized", TransactionNotFound), docs)
      case Some(i) =>
        var rest := docs[..i] + docs[i + 1..];
        forall v | v != userId ensures Owned(rest, v) == Owned(docs, v) {
          OwnedRemove(docs, i, v);
        }
        RemovePreserves(docs, i);
        Step(Ok("Transaction deleted successfully", ()), rest)
  }

  lemma RemovePreserves(docs: seq<Doc>, i: nat)
    requires i < |docs|
    ensures StoreInvariant(docs) ==> StoreInvariant(docs[..i] + docs[i + 1..])
    ensures DistinctIds(docs) ==> forall d :: d in docs[..i] + docs[i + 1..] <==> d in docs && d.id != docs[i].id
  {
    var rest := docs[..i] + docs[i + 1..];
    assert forall k :: 0 <= k < |rest| ==> rest[k] == docs[if k < i then k else k + 1];
    if DistinctIds(docs) {
      forall d | d in docs && d.id != docs[i].id ensures d in rest {
        var k :| 0 <= k < |docs| && docs[k] == d;
        assert rest[if k < i then k else k - 1] == d;
      }
    }
  }

  // ---------------------------------------------------------------- the store object

  /** The Transaction collection as the service sees it. */
  class TransactionStore {
    var docs: seq<Doc>

    ghost predicate Valid()
      reads this
    {
      StoreInvariant(docs)
    }

    constructor ()
      ensures Valid() && docs == []
    {
      docs := [];
    }

    method CreateTransaction(q: CreateRequest, parseDate: string -> Option<int>, newId: string, now: int,
                             fault: Option<StoreFault>) returns (r: ServiceResult<Doc>)
      requires Valid()
      requires newId != "" && !HasId(docs, newId)
      modifies this
      ensures Valid()
      ensures r == CreateStep(old(docs), q, parseDate, newId, now, fault).result
      ensures docs == CreateStep(old(docs), q, parseDate, newId, now, fault).docs
    {
      var checked := CheckCreate(q, parseDate, now);
      if checked.Reject? {
        return Fail(checked.message, checked.code);
      }
      if fault.Some? {
        return CreateFault(fault.value);
      }
      var d := Doc(newId, checked.value);
      docs := docs + [d];
      r := Ok("Transaction created successfully", d);
    }

    method GetUserTransactions(userId: string, fault: Option<StoreFault>) returns (r: ServiceResult<seq<Doc>>)
      ensures r == ListStep(docs, userId, fault)
    {
      if fault.Some? {
        return Fail("Failed to fetch transactions", ServerError);
      }
      var transactions := Sorting.SortNewestFirst(Owned(docs, userId), DateOf);
      r := Ok("Transactions fetched successfully", transactions);
    }

    method UpdateTransaction(id: string, userId: string, u: UpdateData, parseDate: string -> Option<int>, now: int,
                             lookupFault: Option<StoreFault>, writeFault: Option<StoreFault>) returns (r: ServiceResult<Doc>)
      requires Valid()
      modifies this
      ensures Valid()
      ensures r == UpdateStep(old(docs), id, userId, u, parseDate, now, lookupFault, writeFault).result
      ensures docs == UpdateStep(old(docs), id, userId, u, parseDate, now, lookupFault, writeFault).docs
    {
      if id == "" || userId == "" {
        return Fail("Transaction ID and User ID are required", MissingFields);
      }
      if lookupFault.Some? {
        return UpdateFault(lookupFault.value);
      }
      var existing := FindOwned(docs, id, userId);
      if existing.None? {
        return Fail("Transaction not found or unauthorized", TransactionNotFound);
      }
      var safe := SanitizePatch(u, parseDate);
      if safe.Reject? {
        return Fail(safe.message, safe.code);
      }
      if IsEmptyPatch(safe.value) {
        return Fail("No valid fields to update", EmptyUpdate);
      }
      if !Castable(safe.value) {
        return UpdateFault(CastFailed);
      }
      if writeFault.Some? {
        return UpdateFault(writeFault.value);
      }
      var i := existing.value;
      var updated := Doc(id, ApplyPatch(docs[i].tx, safe.value, now));
      docs := docs[i := updated];
      r := Ok("Transaction updated successfully", updated);
    }

    method DeleteTransaction(id: string, userId: string, fault: Option<StoreFault>) returns (r: ServiceResult<()>)
      requires Valid()
      modifies this
      ensures Valid()
      ensures r == DeleteStep(old(docs), id, userId, fault).result
      ensures docs == DeleteStep(old(docs), id, userId, fault).docs
    {
      if id == "" || userId == "" {
        return Fail("Transaction ID and User ID are required", MissingFields);
      }
      if fault.Some? {
        return DeleteFault(fault.value);
      }
      var deleted := FindOwned(docs, id, userId);
      if deleted.None? {
        return Fail("Transaction not found or unauthorized", TransactionNotFound);
      }
      var i := deleted.value;
      docs := docs[..i] + docs[i + 1..];
      r := Ok("Transaction deleted successfully", ());
    }
  }
}

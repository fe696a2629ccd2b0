/**
 * The Transaction collection's document shape and what its Mongoose schema
 * enforces on every write.
 */
module TransactionSchema {

  /**
   * One stored transaction. `kind` is the schema's `type` path (`type` is a
   * Dafny keyword); dates and the store-maintained timestamps are integers.
   * `description` is optional in the schema; the service always writes one.
   */
  datatype Transaction = Transaction(
    userId: string,
    kind: string,
    amount: real,
    category: string,
    description: string,
    date: int,
    createdAt: int,
    updatedAt: int)

  /** The `enum: ['income', 'expense']` of the `type` path. */
  predicate IsKind(k: string) {
    k == "income" || k == "expense"
  }

  /**
   * What the schema's validators accept: the `type` enum, and `required` on
   * the string paths (a required string must be non-empty). The required
   * `amount` and `date` are always present here; `amount` has no bound.
   */
  predicate SchemaValid(t: Transaction) {
    t.userId != "" && IsKind(t.kind) && t.category != ""
  }

  /** The schema sets no lower bound on `amount`: positivity is the service's check alone. */
  lemma AmountUnbounded(t: Transaction, a: real)
    ensures SchemaValid(t.(amount := a)) == SchemaValid(t)
  {
  }
}

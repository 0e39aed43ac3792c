/** The normalized usage event an agent uploads and the hub stores (internal/usage/event.go). */
module Events {
  import opened Wrappers

  /** A SHA-256 digest is modelled by the fields that were hashed, so equal IDs mean equal inputs. */
  datatype EventId =
    | Digest(machine: string, adapter: string, identity: string, offset: nat, timestamp: string, session: string)
    | Opaque(text: string)

  datatype Tokens = Tokens(
    input: Option<int>, output: Option<int>, cacheRead: Option<int>,
    cacheWrite: Option<int>, reasoning: Option<int>, total: Option<int>)
  {
    predicate AnyComponent() {
      input.Some? || output.Some? || cacheRead.Some? || cacheWrite.Some?
    }

    predicate AllSet() {
      input.Some? && output.Some? && cacheRead.Some? && cacheWrite.Some? && reasoning.Some? && total.Some?
    }

    predicate NonNegative() {
      AtLeastZero(input) && AtLeastZero(output) && AtLeastZero(cacheRead) &&
      AtLeastZero(cacheWrite) && AtLeastZero(reasoning) && AtLeastZero(total)
    }

    function Components(): int {
      OrZero(input) + OrZero(output) + OrZero(cacheRead) + OrZero(cacheWrite)
    }
  }

  datatype Accuracy = Reported | Derived | Estimated | Unknown

  /** Columns that take no part in identity or deduplication. */
  datatype Details = Details(
    project: string, canonicalModel: string, cost: Option<real>, costEstimated: bool,
    currency: string, durationMs: Option<int>, accuracy: Accuracy, adapterVersion: string)

  /** `textOk` is the verdict of the character and length checks, which are not part of this model.
      `instant` counts nanoseconds since the Unix epoch. */
  datatype Event = Event(
    id: EventId, instant: int, machine: string, session: string, provider: string, model: string,
    tool: string, tokens: Tokens, adapter: string, details: Details, textOk: bool)

  const DAY_NANOSECONDS: int := 24 * 60 * 60 * 1_000_000_000
  const MAX_DURATION_MS: int := 365 * 24 * 60 * 60 * 1000

  predicate AtLeastZero(value: Option<int>) {
    value.Some? ==> value.value >= 0
  }

  function OrZero(value: Option<int>): int {
    if value.Some? then value.value else 0
  }

  /** A known total must cover the known components. */
  predicate TotalsConsistent(tokens: Tokens) {
    tokens.total.Some? ==> tokens.Components() <= tokens.total.value
  }

  predicate Valid(e: Event, now: int) {
    && e.textOk
    && 0 <= e.instant <= now + DAY_NANOSECONDS
    && e.machine != "" && e.adapter != ""
    && e.tokens.NonNegative()
    && (e.details.durationMs.Some? ==> 0 <= e.details.durationMs.value <= MAX_DURATION_MS)
    && (e.details.cost.Some? ==> e.details.cost.value >= 0.0)
    && TotalsConsistent(e.tokens)
  }

  /** The copy of an event that is uploaded: a contradictory total becomes unknown, nothing else changes. */
  function SanitizeOutbound(e: Event): (r: Event)
    ensures TotalsConsistent(r.tokens)
    ensures r.id == e.id && r.tokens.(total := e.tokens.total) == e.tokens
    ensures TotalsConsistent(e.tokens) ==> r == e
    ensures !TotalsConsistent(e.tokens) ==> r.tokens.total.None? && r.details.accuracy == Unknown
    ensures r.(tokens := e.tokens, details := e.details) == e
    ensures r.details.(accuracy := e.details.accuracy) == e.details
  {
    if TotalsConsistent(e.tokens) then e
    else e.(tokens := e.tokens.(total := None), details := e.details.(accuracy := Unknown))
  }
}

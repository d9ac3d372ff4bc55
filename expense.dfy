/** The expense client service: how `create` and `update` turn a request body
    into the payload that is sent, and how `list` turns its optional filters
    into query parameters. Unlike the income service there is no aliasing and
    no `source` filter. The HTTP calls themselves are not modelled. */
module ExpenseService {
  import opened Js

  /** An expense body as the service receives it; every property may be
      absent. `UpdateExpenseBody` is `Partial<CreateExpenseBody>`, which is
      exactly this type. There is no `source` property. */
  datatype ExpenseBody = ExpenseBody(
    description: Option<string>,
    amount: Option<real>,
    category: Option<string>,
    date: Option<DateInput>,
    notes: Option<string>)

  /** `CreateExpenseBody`: description, amount, category and date are
      required, notes are optional. */
  type CreateExpenseBody = b: ExpenseBody
    | b.description.Some? && b.amount.Some? && b.category.Some? && b.date.Some?
    witness ExpenseBody(Some(""), Some(0.0), Some(""), Some(Text("")), None)

  /** The optional filters of `list`. */
  datatype ExpenseListParams = ExpenseListParams(
    from: Option<DateInput>,
    to: Option<DateInput>,
    category: Option<string>)

  /** The normal form of an expense body: the date in its wire form, every
      other property as given. */
  function Normalised(b: ExpenseBody, toISO: Instant -> string): ExpenseBody {
    b.(date := CoerceDate(b.date, toISO))
  }

  /** The payload of `create`: a fresh copy of the body whose `date` is then
      overwritten when it is a `Date`. */
  method Create(body: CreateExpenseBody, toISO: Instant -> string) returns (payload: CreateExpenseBody)
    ensures payload == Normalised(body, toISO)
    ensures body.date.value.Date? ==> payload.date == Some(Text(toISO(body.date.value.instant)))
    ensures body.date.value.Text? ==> payload.date == body.date
    ensures payload.description == body.description && payload.amount == body.amount
    ensures payload.category == body.category && payload.notes == body.notes
  {
    payload := body;
    if payload.date.value.Date? {
      payload := payload.(date := Some(Text(toISO(payload.date.value.instant))));
    }
  }

  /** The payload of `update`: the same date rule applied to a partial patch.
      The record id only forms the request URL and is not modelled. */
  method Update(patch: ExpenseBody, toISO: Instant -> string) returns (payload: ExpenseBody)
    ensures payload == Normalised(patch, toISO)
    ensures patch.date.None? ==> payload.date.None?
    ensures patch.date.Some? && patch.date.value.Date? ==> payload.date == Some(Text(toISO(patch.date.value.instant)))
    ensures patch.date.Some? && patch.date.value.Text? ==> payload.date == patch.date
    ensures payload.description == patch.description && payload.amount == patch.amount
    ensures payload.category == patch.category && payload.notes == patch.notes
  {
    payload := patch;
    if payload.date.Some? && payload.date.value.Date? {
      payload := payload.(date := Some(Text(toISO(payload.date.value.instant))));
    }
  }

  /** Normalisation only ever rewrites `date`, leaves it on the wire, and
      normalising twice is normalising once. */
  lemma NormalisedIdempotent(b: ExpenseBody, toISO: Instant -> string)
    ensures Normalised(b, toISO).(date := b.date) == b
    ensures OnWire(Normalised(b, toISO).date)
    ensures OnWire(b.date) ==> Normalised(b, toISO) == b
    ensures Normalised(Normalised(b, toISO), toISO) == Normalised(b, toISO)
  {
  }

  /** The query parameters of `list`: one entry per truthy filter among
      category, from and to, and never a `source` entry. */
  method List(params: Option<ExpenseListParams>, toISO: Instant -> string) returns (p: map<string, string>)
    ensures p.Keys <= {"category", "from", "to"} && "source" !in p
    ensures params.None? ==> p == map[]
    ensures params.Some? ==>
      var q := params.value;
      && ("category" in p <==> Truthy(q.category))
      && ("from" in p <==> DateTruthy(q.from))
      && ("to" in p <==> DateTruthy(q.to))
      && ("category" in p ==> p["category"] == q.category.value)
      && ("from" in p ==> p["from"] == DateString(q.from.value, toISO))
      && ("to" in p ==> p["to"] == DateString(q.to.value, toISO))
    ensures p == map[] <==>
      params.None? ||
      !(Truthy(params.value.category) || DateTruthy(params.value.from) || DateTruthy(params.value.to))
  {
    p := map[];
    if params.Some? {
      var q := params.value;
      if Truthy(q.category) {
        p := p["category" := q.category.value];
      }
      if DateTruthy(q.from) {
        p := p["from" := DateString(q.from.value, toISO)];
      }
      if DateTruthy(q.to) {
        p := p["to" := DateString(q.to.value, toISO)];
      }
    }
  }
}

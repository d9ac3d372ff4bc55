/** The income client service: how `create` and `update` turn a request body
    into the payload that is sent, and how `list` turns its optional filters
    into query parameters. The HTTP calls themselves are not modelled. */
module IncomeService {
  import opened Js

  /** An income body as the service receives it; every property may be
      absent. `UpdateIncomeBody` is `Partial<CreateIncomeBody>`, which is
      exactly this type. */
  datatype IncomeBody = IncomeBody(
    source: Option<string>,
    description: Option<string>,
    category: Option<string>,
    amount: Option<real>,
    date: Option<DateInput>,
    notes: Option<string>)

  /** `CreateIncomeBody`: the only required property is `amount`. */
  type CreateIncomeBody = b: IncomeBody | b.amount.Some?
    witness IncomeBody(None, None, None, Some(0.0), None, None)

  /** The optional filters of `list`. */
  datatype IncomeListParams = IncomeListParams(
    from: Option<DateInput>,
    to: Option<DateInput>,
    source: Option<string>,
    category: Option<string>)

  /** The label the server stores: `description` stands in for a falsy
      `source`. */
  function AliasedSource(b: IncomeBody): Option<string> {
    if !Truthy(b.source) && Truthy(b.description) then b.description else b.source
  }

  /** The normal form of an income body: the aliased source and the date in
      its wire form, every other property as given. */
  function Normalised(b: IncomeBody, toISO: Instant -> string): IncomeBody {
    b.(source := AliasedSource(b), date := CoerceDate(b.date, toISO))
  }

  /** Whether a payload is what the normaliser sends: its source already
      resolved and its date a string or absent. */
  predicate IsNormalised(b: IncomeBody) {
    (Truthy(b.source) || !Truthy(b.description)) && OnWire(b.date)
  }

  /** The payload of `create`: a fresh copy of the body whose `source` and
      `date` are then overwritten in turn. */
  method Create(body: CreateIncomeBody, toISO: Instant -> string) returns (payload: CreateIncomeBody)
    ensures payload == Normalised(body, toISO)
    ensures Truthy(body.source) ==> payload.source == body.source
    ensures !Truthy(body.source) && Truthy(body.description) ==> payload.source == body.description
    ensures !Truthy(body.source) && !Truthy(body.description) ==> payload.source == body.source
    ensures payload.date == CoerceDate(body.date, toISO) && OnWire(payload.date)
    ensures payload.description == body.description && payload.category == body.category
    ensures payload.amount == body.amount && payload.notes == body.notes
  {
    payload := body;
    if !Truthy(payload.source) && Truthy(payload.description) {
      payload := payload.(source := payload.description);
    }
    if payload.date.Some? && payload.date.value.Date? {
      payload := payload.(date := Some(Text(toISO(payload.date.value.instant))));
    }
  }

  /** The payload of `update`: the same rewriting applied to a partial
      patch. The record id only forms the request URL and is not modelled. */
  method Update(patch: IncomeBody, toISO: Instant -> string) returns (payload: IncomeBody)
    ensures payload == Normalised(patch, toISO)
    ensures Truthy(patch.source) ==> payload.source == patch.source
    ensures !Truthy(patch.source) && Truthy(patch.description) ==> payload.source == patch.description
    ensures !Truthy(patch.source) && !Truthy(patch.description) ==> payload.source == patch.source
    ensures payload.date == CoerceDate(patch.date, toISO) && OnWire(payload.date)
    ensures payload.description == patch.description && payload.category == patch.category
    ensures payload.amount == patch.amount && payload.notes == patch.notes
  {
    payload := patch;
    if !Truthy(payload.source) && Truthy(payload.description) {
      payload := payload.(source := payload.description);
    }
    if payload.date.Some? && payload.date.value.Date? {
      payload := payload.(date := Some(Text(toISO(payload.date.value.instant))));
    }
  }

  /** Normalisation only ever rewrites `source` and `date`: putting the
      original two back gives the original body. */
  lemma OnlySourceAndDateRewritten(b: IncomeBody, toISO: Instant -> string)
    ensures Normalised(b, toISO).(source := b.source, date := b.date) == b
  {
  }

  /** The normal form is normalised, and a normalised body is left as it is;
      hence normalising twice is normalising once. */
  lemma NormalisedIdempotent(b: IncomeBody, toISO: Instant -> string)
    ensures IsNormalised(Normalised(b, toISO))
    ensures IsNormalised(b) ==> Normalised(b, toISO) == b
    ensures Normalised(Normalised(b, toISO), toISO) == Normalised(b, toISO)
  {
  }

  /** After normalisation the body carries a truthy source exactly when it
      had a truthy source or a truthy description. */
  lemma LabelResolved(b: IncomeBody, toISO: Instant -> string)
    ensures Truthy(Normalised(b, toISO).source) <==> Truthy(b.source) || Truthy(b.description)
  {
  }

  /** A patch that only sets a non-empty description also sets the source to
      it, and keeps the description. */
  lemma DescriptionOnlyPatch(d: string, toISO: Instant -> string)
    requires d != ""
    ensures var patch := IncomeBody(None, Some(d), None, None, None, None);
      Normalised(patch, toISO) == patch.(source := Some(d))
  {
  }

  /** The query parameters of `list`: one entry per truthy filter among
      source, category, from and to. */
  method List(params: Option<IncomeListParams>, toISO: Instant -> string) returns (p: map<string, string>)
    ensures p.Keys <= {"source", "category", "from", "to"}
    ensures params.None? ==> p == map[]
    ensures params.Some? ==>
      var q := params.value;
      && ("source" in p <==> Truthy(q.source))
      && ("category" in p <==> Truthy(q.category))
      && ("from" in p <==> DateTruthy(q.from))
      && ("to" in p <==> DateTruthy(q.to))
      && ("source" in p ==> p["source"] == q.source.value)
      && ("category" in p ==> p["category"] == q.category.value)
      && ("from" in p ==> p["from"] == DateString(q.from.value, toISO))
      && ("to" in p ==> p["to"] == DateString(q.to.value, toISO))
    ensures p == map[] <==>
      params.None? ||
      !(Truthy(params.value.source) || Truthy(params.value.category) ||
        DateTruthy(params.value.from) || DateTruthy(params.value.to))
  {
    p := map[];
    if params.Some? {
      var q := params.value;
      if Truthy(q.source) {
        p := p["source" := q.source.value];
      }
      if Truthy(q.category) {
        p := p["category" := q.category.value];
      }
      if DateTruthy(q.from) {
        p := p["from" := DateString(q.from.value, toISO)];
      }
      if DateTruthy(q.to) {
        p := p["to" := DateString(q.to.value, toISO)];
      }
    }
  }
}

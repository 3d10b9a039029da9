/**
 * The parameter source: one lookup in the remote parameter store (AWS Systems
 * Manager Parameter Store) and how its outcome becomes a value, an absent
 * property or an error. The store is not called: what each client would answer
 * to each request is an argument.
 */
module ParameterStore {
  import opened Wrappers

  /** The only status code a successful answer of the store may carry. */
  const StatusOk := 200

  /** A store client, bound to a signing region (None: the ambient default region). */
  datatype SsmClient = SsmClient(signingRegion: Option<string>)

  /** What the source asks the store for one property. */
  datatype GetParameterRequest = GetParameterRequest(name: string, withDecryption: bool)

  /** A stored parameter; its value may be null. */
  datatype Parameter = Parameter(value: Option<string>)

  /** How one call to the store's client ends. */
  datatype ClientOutcome =
    | ParameterNotFoundException
    | OtherException
    | Response(statusCode: int, parameter: Option<Parameter>)

  /**
   * The errors the source raises. In Java the not-found error is a subclass
   * of the general one; here they are two constructors.
   */
  datatype Error =
    | ParameterStoreParameterNotFoundError(propertyName: string)
    | ParameterStoreError(propertyName: string)

  /** What a property lookup produces: a value, null, or a raised error. */
  datatype Lookup = Value(value: string) | Absent | Raised(error: Error)

  /** A parameter source: the client it queries and whether a missing parameter halts boot. */
  datatype ParameterStoreSource = ParameterStoreSource(client: SsmClient, haltBoot: bool)

  /** The store's answers: what each client returns for each request. */
  type Answers = (SsmClient, GetParameterRequest) -> ClientOutcome

  /** The request sent for a property: its name, with decryption asked for. */
  function RequestFor(propertyName: string): GetParameterRequest
  {
    GetParameterRequest(propertyName, true)
  }

  /** True of a store answer that carries status 200 and a parameter whose value is not null. */
  predicate IsUsableResponse(outcome: ClientOutcome)
  {
    outcome.Response? && outcome.statusCode == StatusOk &&
    outcome.parameter.Some? && outcome.parameter.value.value.Some?
  }

  /** How a lookup classifies the client's answer. */
  function Classify(source: ParameterStoreSource, propertyName: string, outcome: ClientOutcome): Lookup
  {
    match outcome
    case ParameterNotFoundException =>
      if source.haltBoot then Raised(ParameterStoreParameterNotFoundError(propertyName)) else Absent
    case OtherException =>
      Raised(ParameterStoreError(propertyName))
    case Response(statusCode, parameter) =>
      if statusCode != StatusOk then Raised(ParameterStoreError(propertyName))
      else if parameter.None? then Raised(ParameterStoreError(propertyName))
      else if parameter.value.value.None? then Raised(ParameterStoreError(propertyName))
      else Value(parameter.value.value.value)
  }

  /**
   * getProperty: asks the source's own client for the property by name, with
   * decryption. A usable answer yields its value; "not found" yields null, or
   * the not-found error under haltBoot; every other outcome is the general error.
   */
  function GetProperty(source: ParameterStoreSource, propertyName: string, answers: Answers): (r: Lookup)
    ensures var outcome := answers(source.client, GetParameterRequest(propertyName, true));
      && (r.Value? <==> IsUsableResponse(outcome))
      && (r.Value? ==> outcome.Response? && outcome.parameter == Some(Parameter(Some(r.value))))
      && (r == Absent <==> outcome == ParameterNotFoundException && !source.haltBoot)
      && (r == Raised(ParameterStoreParameterNotFoundError(propertyName))
          <==> outcome == ParameterNotFoundException && source.haltBoot)
      && (r == Raised(ParameterStoreError(propertyName))
          <==> outcome == OtherException || (outcome.Response? && !IsUsableResponse(outcome)))
    ensures r.Raised? ==> r.error.propertyName == propertyName
  {
    Classify(source, propertyName, answers(source.client, RequestFor(propertyName)))
  }

  /**
   * A lookup depends only on what its own client answers to the request for
   * that name with decryption: the store may answer anything else differently.
   */
  lemma OnlyTheExactRequestIsSent(source: ParameterStoreSource, propertyName: string, answers: Answers, others: Answers)
    requires answers(source.client, GetParameterRequest(propertyName, true))
          == others(source.client, GetParameterRequest(propertyName, true))
    ensures GetProperty(source, propertyName, answers) == GetProperty(source, propertyName, others)
  {
  }

  /** A source that halts boot never answers null: every failure is raised. */
  lemma HaltBootNeverAbsent(source: ParameterStoreSource, propertyName: string, answers: Answers)
    requires source.haltBoot
    ensures GetProperty(source, propertyName, answers) != Absent
    ensures !IsUsableResponse(answers(source.client, RequestFor(propertyName))) ==>
              GetProperty(source, propertyName, answers).Raised?
  {
  }

  /**
   * haltBoot changes the classification of "not found" and of nothing else:
   * the general error is never downgraded, a value is never withheld.
   */
  lemma HaltBootOnlyAffectsNotFound(client: SsmClient, propertyName: string, answers: Answers)
    requires answers(client, RequestFor(propertyName)) != ParameterNotFoundException
    ensures GetProperty(ParameterStoreSource(client, true), propertyName, answers)
         == GetProperty(ParameterStoreSource(client, false), propertyName, answers)
  {
  }

  /** A stored value comes back exactly as stored, whatever the source's haltBoot. */
  lemma StoredValueIsReturned(source: ParameterStoreSource, propertyName: string, value: string, answers: Answers)
    requires answers(source.client, RequestFor(propertyName)) == Response(StatusOk, Some(Parameter(Some(value))))
    ensures GetProperty(source, propertyName, answers) == Value(value)
  {
  }

  /** Any status other than 200 is the general error, whatever the body and haltBoot say. */
  lemma BadStatusIsError(source: ParameterStoreSource, propertyName: string, answers: Answers)
    requires answers(source.client, RequestFor(propertyName)).Response?
    requires answers(source.client, RequestFor(propertyName)).statusCode != StatusOk
    ensures GetProperty(source, propertyName, answers) == Raised(ParameterStoreError(propertyName))
  {
  }
}

/**
 * How `request` reacts to a decoded response envelope: it either replaces the
 * client's raw data, raises one of the service's three domain errors, fails
 * on the typed-property assignment, or does nothing. The reaction is stated
 * here as a pure step of a state machine over the raw data; the client class
 * runs it imperatively.
 */
module Responses {
  import opened Wrappers
  import opened Payload

  /** The domain errors the client raises, one per exception class. */
  datatype ServiceError = UnknownStation | QuotaExceeded | InvalidAccessToken

  /** How a call of `request` ends. */
  datatype Outcome =
    | Completed
    | Raised(error: ServiceError)
      // assigning a non-object to the `?stdClass` raw-data property throws a TypeError
    | TypeMismatch

  /** The message each exception class passes to its parent constructor. */
  function Message(e: ServiceError): (m: string)
    ensures e == UnknownStation <==> m == "Unknown monitoring station or city"
    ensures e == QuotaExceeded <==> m == "Request Quota has been exceeded"
    ensures e == InvalidAccessToken <==> m == "Invalid access token"
  {
    match e
    case UnknownStation => "Unknown monitoring station or city"
    case QuotaExceeded => "Request Quota has been exceeded"
    case InvalidAccessToken => "Invalid access token"
  }

  /** The `data` strings of an error response, with the error each one names. */
  const UnknownStationLabel := "Unknown station"
  const OverQuotaLabel := "Over quota"
  const InvalidKeyLabel := "Invalid key"

  /**
   * PHP's loose `==`, which `switch` uses, between an envelope member and one
   * of the three case labels. The labels are non-empty and non-numeric, so a
   * string matches only itself, `true` matches every label (the label converts
   * to `true`), and a number, an array or an object matches none.
   */
  predicate MatchesLabel(v: Json, caseLabel: string)
    requires caseLabel in {UnknownStationLabel, OverQuotaLabel, InvalidKeyLabel}
    ensures MatchesLabel(v, caseLabel) <==> v == Text(caseLabel) || v == Bool(true)
  {
    match v
    case Text(s) => s == caseLabel
    case Bool(b) => b
    case _ => false
  }

  /** What `request` does with a decoded envelope, independent of the current raw data. */
  datatype Reaction =
    | Replace(raw: Option<Snapshot>)
    | Raise(error: ServiceError)
    | Reject
    | Ignore

  /**
   * The reaction to an envelope. Status `"ok"` (compared strictly, so only the
   * string) stores `data`: an object becomes the new snapshot and a missing or
   * null member clears it, while any other value cannot be stored in the
   * `?stdClass` property. Status `"error"` with a present, non-null `data`
   * is matched against the three labels in order. Everything else is ignored.
   */
  function Classify(env: Envelope): (r: Reaction)
    ensures r.Replace? <==> env.status == Text("ok") && (env.data.Record? || env.data == Absent || env.data == Null)
    ensures env.status == Text("ok") && env.data.Record? ==> r == Replace(Some(env.data.payload))
    ensures env.status == Text("ok") && (env.data == Absent || env.data == Null) ==> r == Replace(None)
    ensures r.Reject? <==> env.status == Text("ok") && !(env.data.Record? || env.data == Absent || env.data == Null)
    ensures env.status == Text("error") && env.data == Text(UnknownStationLabel) ==> r == Raise(UnknownStation)
    ensures env.status == Text("error") && env.data == Text(OverQuotaLabel) ==> r == Raise(QuotaExceeded)
    ensures env.status == Text("error") && env.data == Text(InvalidKeyLabel) ==> r == Raise(InvalidAccessToken)
    ensures r.Raise? ==> env.status == Text("error") && (env.data.Text? || env.data == Bool(true))
    ensures env.status != Text("ok") && env.status != Text("error") ==> r == Ignore
    ensures env.status == Text("error") && (env.data == Absent || env.data == Null) ==> r == Ignore
    ensures (env.status == Text("error") && env.data.Text? &&
             env.data.s !in {UnknownStationLabel, OverQuotaLabel, InvalidKeyLabel}) ==> r == Ignore
  {
    if env.status == Text("ok") then
      match env.data
      case Record(s) => Replace(Some(s))
      case Absent => Replace(None)
      case Null => Replace(None)
      case _ => Reject
    else if env.status == Text("error") && env.data != Absent && env.data != Null then
      if MatchesLabel(env.data, UnknownStationLabel) then Raise(UnknownStation)
      else if MatchesLabel(env.data, OverQuotaLabel) then Raise(QuotaExceeded)
      else if MatchesLabel(env.data, InvalidKeyLabel) then Raise(InvalidAccessToken)
      else Ignore
    else
      Ignore
  }

  /**
   * One step of the client's state machine: the raw data after the envelope
   * is handled, and how the call ends. Only a replacing reaction changes the
   * raw data; every failure leaves it as it was.
   */
  function Step(raw: Option<Snapshot>, env: Envelope): (r: (Option<Snapshot>, Outcome))
    ensures r.0 != raw ==> env.status == Text("ok")
    ensures r.1 != Completed ==> r.0 == raw
    ensures env.status == Text("ok") && env.data.Record? ==> r == (Some(env.data.payload), Completed)
  {
    match Classify(env)
    case Replace(next) => (next, Completed)
    case Raise(e) => (raw, Raised(e))
    case Reject => (raw, TypeMismatch)
    case Ignore => (raw, Completed)
  }

  /** The raw data after a sequence of envelopes is handled one after another. */
  function Run(raw: Option<Snapshot>, envs: seq<Envelope>): Option<Snapshot>
    decreases |envs|
  {
    if envs == [] then raw else Run(Step(raw, envs[0]).0, envs[1..])
  }

  /**
   * The raw data the last storing response of a sequence carried, or the
   * initial raw data when no response in the sequence stores anything.
   */
  function LastStored(raw: Option<Snapshot>, envs: seq<Envelope>): Option<Snapshot>
    decreases |envs|
  {
    if envs == [] then raw
    else match Classify(envs[|envs| - 1])
      case Replace(next) => next
      case _ => LastStored(raw, envs[..|envs| - 1])
  }

  lemma {:induction false} RunSnoc(raw: Option<Snapshot>, envs: seq<Envelope>, env: Envelope)
    ensures Run(raw, envs + [env]) == Step(Run(raw, envs), env).0
    decreases |envs|
  {
    if envs == [] {
      assert [] + [env] == [env];
    } else {
      assert (envs + [env])[1..] == envs[1..] + [env];
      RunSnoc(Step(raw, envs[0]).0, envs[1..], env);
    }
  }

  /**
   * The raw data is always what the most recent storing response carried:
   * each stored snapshot replaces the previous one wholesale, and nothing
   * else touches it.
   */
  lemma {:induction false} RunKeepsLastStored(raw: Option<Snapshot>, envs: seq<Envelope>)
    ensures Run(raw, envs) == LastStored(raw, envs)
    decreases |envs|
  {
    if envs != [] {
      var init := envs[..|envs| - 1];
      assert envs == init + [envs[|envs| - 1]];
      RunSnoc(raw, init, envs[|envs| - 1]);
      RunKeepsLastStored(raw, init);
    }
  }

  /** Handling the same envelope twice ends where handling it once does. */
  lemma StepIdempotent(raw: Option<Snapshot>, env: Envelope)
    ensures Step(Step(raw, env).0, env) == Step(raw, env)
  {
  }

  /**
   * Because `switch` compares loosely, an error response whose `data` is the
   * boolean `true` raises UnknownStation, the first case.
   */
  lemma LooseMatchOnTrue()
    ensures Classify(Envelope(Text("error"), Bool(true))) == Raise(UnknownStation)
  {
  }

  /** The three exception messages are pairwise distinct. */
  lemma MessagesDistinct(e1: ServiceError, e2: ServiceError)
    ensures Message(e1) == Message(e2) <==> e1 == e2
  {
  }
}

/** The model client as an arbitrary environment, and the normalisation of its tool calls. */
module Model {
  import opened Wrappers
  import opened Transcript
  import opened Runtime

  datatype Call = Call(provider: Option<Id>, name: Option<string>, arguments: string, badId: bool)

  datatype Response = Response(text: string, calls: seq<Call>)

  /** The identifier of a tool call as the provider sent it. */
  datatype RawId = MissingId | InvalidId | TextId(text: string)

  datatype RawCall = RawCall(id: RawId, name: Option<string>, arguments: string)

  /** Identifiers that are not flagged are provider identifiers, and distinct. */
  ghost predicate Normalized(calls: seq<Call>) {
    && (forall i :: 0 <= i < |calls| && calls[i].provider.Some? ==> calls[i].provider.value.Provider?)
    && (forall i, j :: 0 <= i < j < |calls| && Usable(calls[i]) && Usable(calls[j]) ==>
          calls[i].provider != calls[j].provider)
  }

  predicate Usable(c: Call) {
    c.provider.Some? && !c.badId
  }

  /** The call keeps what was sent; its identifier is flagged unless it is text that no earlier call
      of the reply has. */
  predicate NormalizedFrom(raw: seq<RawCall>, i: nat, call: Call)
    requires i < |raw|
  {
    && call.name == raw[i].name && call.arguments == raw[i].arguments
    && call.provider == (if raw[i].id.TextId? then Some(Provider(raw[i].id.text)) else None)
    && (call.badId <==> !raw[i].id.TextId? || exists j :: 0 <= j < i && raw[j].id == raw[i].id)
  }

  lemma {:induction false} NormalizedDiffer(raw: seq<RawCall>, calls: seq<Call>)
    requires |calls| == |raw| && forall i :: 0 <= i < |calls| ==> NormalizedFrom(raw, i, calls[i])
    ensures Normalized(calls)
  {
    forall i, j | 0 <= i < j < |calls| && Usable(calls[i]) && Usable(calls[j])
      ensures calls[i].provider != calls[j].provider
    {
      assert NormalizedFrom(raw, i, calls[i]) && NormalizedFrom(raw, j, calls[j]);
    }
    forall i | 0 <= i < |calls| && calls[i].provider.Some? ensures calls[i].provider.value.Provider? {
      assert NormalizedFrom(raw, i, calls[i]);
    }
  }

  /** model_client.py _normalize_tool_call over one reply: missing and malformed identifiers are
      dropped and flagged; a repeated one is kept but flagged. */
  method NormalizeCalls(raw: seq<RawCall>) returns (calls: seq<Call>)
    ensures |calls| == |raw| && Normalized(calls)
    ensures forall i :: 0 <= i < |raw| ==> NormalizedFrom(raw, i, calls[i])
  {
    calls := [];
    var seen: set<string> := {};
    for n := 0 to |raw|
      invariant |calls| == n
      invariant forall t :: t in seen <==> exists j :: 0 <= j < n && raw[j].id == TextId(t)
      invariant forall i :: 0 <= i < n ==> NormalizedFrom(raw, i, calls[i])
    {
      var r := raw[n];
      match r.id {
        case MissingId => calls := calls + [Call(None, r.name, r.arguments, true)];
        case InvalidId => calls := calls + [Call(None, r.name, r.arguments, true)];
        case TextId(t) =>
          calls := calls + [Call(Some(Provider(t)), r.name, r.arguments, t in seen)];
          seen := seen + {t};
      }
    }
    NormalizedDiffer(raw, calls);
  }

  /** context.py ApproximateTokenEstimator as an additive cost. */
  datatype Estimator = Estimator(cost: Msg -> nat, overhead: nat) {
    function Sum(messages: seq<Msg>): nat {
      if messages == [] then 0 else cost(messages[0]) + Sum(messages[1..])
    }

    /** `tools` is the cost of the tool schemas sent along. */
    function Request(messages: seq<Msg>, tools: nat): nat {
      Sum(messages) + tools + overhead
    }
  }

  /** The window shared by the context builder, the compactor and the model. */
  datatype Window = Window(estimator: Estimator, size: nat, reserve: nat) {
    predicate Fits(messages: seq<Msg>, tools: nat) {
      estimator.Request(messages, tools) + reserve <= size
    }
  }

  datatype Sent = Sent(messages: seq<Msg>, tools: nat)

  /** Every request is recorded; a request that does not fit the window cannot be made. */
  class ModelClient {
    const window: Window
    var sent: seq<Sent>

    constructor (window: Window)
      ensures this.window == window && sent == []
    {
      this.window, sent := window, [];
    }

    ghost predicate AllFit()
      reads this
    {
      forall i :: 0 <= i < |sent| ==> window.Fits(sent[i].messages, sent[i].tools)
    }

    method Complete(messages: seq<Msg>, tools: nat) returns (r: Result<Response, Exn>)
      requires window.Fits(messages, tools)
      modifies this
      ensures sent == old(sent) + [Sent(messages, tools)]
      ensures r.Ok? ==> Normalized(r.value.calls)
      ensures r.Err? ==> r.error.External()
    {
      sent := sent + [Sent(messages, tools)];
      var fails: bool := *;
      if fails {
        var raised := AnyFault();
        return Err(raised);
      }
      var text: string, raw: seq<RawCall> := *, *;
      var calls := NormalizeCalls(raw);
      return Ok(Response(text, calls));
    }
  }
}

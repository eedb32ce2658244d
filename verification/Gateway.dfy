/** The registration gateway as an idempotent server, and bounded retries against it. */
module Gateway {
  import opened Basics
  import opened Retry

  datatype Options = Options(token: string, unavailableFor: int, failUnregister: bool)

  /** The registration payload; absent when the request body cannot be decoded. */
  datatype Payload = Payload(deploymentId: string, model: string, baseUrl: string, apiKey: string, runtime: string)

  datatype Request = Request(authorization: string, key: string, body: Option<Payload>)

  datatype Endpoint = Endpoint(id: string, deploymentId: string, status: string)

  datatype Registration = Registration(endpoint: Endpoint, key: string)

  /** A status code, and the endpoint when the response carries one. */
  datatype Response = Response(status: int, endpoint: Option<Endpoint>)

  datatype State = State(registrations: map<string, Registration>, registerCalls: nat)

  predicate Authorized(opts: Options, authorization: string) {
    opts.token == "" || authorization == "Bearer " + opts.token
  }

  predicate Complete(p: Payload) {
    p.deploymentId != "" && p.model != "" && p.baseUrl != "" && p.apiKey != "" && p.runtime != ""
  }

  function NewEndpoint(id: string): Endpoint {
    Endpoint("ep-" + id, id, "registering")
  }

  function Register(opts: Options, s: State, req: Request): (State, Response) {
    if !Authorized(opts, req.authorization) then (s, Response(401, None))
    else
      var counted := s.(registerCalls := s.registerCalls + 1);
      if counted.registerCalls <= opts.unavailableFor then (counted, Response(503, None))
      else if req.key == "" || req.body.None? || !Complete(req.body.value) then (counted, Response(400, None))
      else
        var id := req.body.value.deploymentId;
        if id in s.registrations then
          if s.registrations[id].key == req.key then (counted, Response(201, Some(s.registrations[id].endpoint)))
          else (counted, Response(409, None))
        else
          (counted.(registrations := s.registrations[id := Registration(NewEndpoint(id), req.key)]),
           Response(201, Some(NewEndpoint(id))))
  }

  function Unregister(opts: Options, s: State, authorization: string, id: string): (State, Response) {
    if !Authorized(opts, authorization) then (s, Response(401, None))
    else if opts.failUnregister then (s, Response(500, None))
    else (s.(registrations := s.registrations - {id}), Response(204, None))
  }

  function Lookup(opts: Options, s: State, authorization: string, id: string): Response {
    if !Authorized(opts, authorization) then Response(401, None)
    else if id in s.registrations then Response(200, Some(s.registrations[id].endpoint))
    else Response(404, None)
  }

  class Gateway {
    const opts: Options
    var registrations: map<string, Registration>
    var registerCalls: nat

    constructor (opts: Options)
      ensures this.opts == opts && Contents() == State(map[], 0)
    {
      this.opts := opts;
      registrations := map[];
      registerCalls := 0;
    }

    ghost function Contents(): State
      reads this
    {
      State(registrations, registerCalls)
    }

    method HandleRegister(req: Request) returns (resp: Response)
      modifies this
      ensures (Contents(), resp) == Register(opts, old(Contents()), req)
    {
      if opts.token != "" && req.authorization != "Bearer " + opts.token {
        return Response(401, None);
      }
      registerCalls := registerCalls + 1;
      if registerCalls <= opts.unavailableFor {
        return Response(503, None);
      }
      if req.key == "" {
        return Response(400, None);
      }
      if req.body.None? || !Complete(req.body.value) {
        return Response(400, None);
      }
      var id := req.body.value.deploymentId;
      if id in registrations {
        var existing := registrations[id];
        if existing.key == req.key {
          return Response(201, Some(existing.endpoint));
        }
        return Response(409, None);
      }
      var endpoint := NewEndpoint(id);
      registrations := registrations[id := Registration(endpoint, req.key)];
      return Response(201, Some(endpoint));
    }

    method HandleUnregister(authorization: string, id: string) returns (resp: Response)
      modifies this`registrations
      ensures (Contents(), resp) == Unregister(opts, old(Contents()), authorization, id)
    {
      if opts.token != "" && authorization != "Bearer " + opts.token {
        return Response(401, None);
      }
      if opts.failUnregister {
        return Response(500, None);
      }
      registrations := registrations - {id};
      return Response(204, None);
    }

    method HandleGet(authorization: string, id: string) returns (resp: Response)
      ensures resp == Lookup(opts, Contents(), authorization, id)
    {
      if opts.token != "" && authorization != "Bearer " + opts.token {
        return Response(401, None);
      }
      if id !in registrations {
        return Response(404, None);
      }
      return Response(200, Some(registrations[id].endpoint));
    }
  }

  // ----- one request, over a network that loses messages -----

  datatype Delivery = Delivered | RequestLost | ResponseLost

  /** registerOnce: a 5xx answer is worth retrying, as is an answer that never came; any other refusal is permanent. */
  function Classify(resp: Response): Outcome {
    if resp.status < 300 then Done else if resp.status >= 500 then Retryable else Permanent
  }

  /** One request over the network: what reaches the gateway, and what the client makes of the answer. */
  function Exchange(opts: Options, req: Request, d: Delivery, s: State): (State, Outcome) {
    match d
    case RequestLost => (s, Retryable)
    case ResponseLost => (Register(opts, s, req).0, Retryable)
    case Delivered => (Register(opts, s, req).0, Classify(Register(opts, s, req).1))
  }

  /** The attempts of the client: the same request, with the same key, every time. */
  function Attempt(opts: Options, req: Request, net: nat -> Delivery): (State, nat) -> (State, Outcome) {
    (s: State, k: nat) => Exchange(opts, req, net(k), s)
  }

  /** Attempt `k` is one exchange on the state the attempts before it left. */
  lemma AttemptIsExchange(opts: Options, req: Request, net: nat -> Delivery, s: State, k: nat)
    requires k >= 1
    ensures var op := Attempt(opts, req, net);
            Exchange(opts, req, net(k), StateAfter(op, s, k - 1)) == (StateAfter(op, s, k), OutcomeOf(op, s)(k))
  {
    OutcomeAt(Attempt(opts, req, net), s, k);
    hide StateAfter, OutcomeOf, Exchange;
  }

  /** The request is well formed, and its deployment is not registered, or registered under the same key. */
  predicate MayRegister(opts: Options, s: State, req: Request) {
    && Authorized(opts, req.authorization)
    && req.key != "" && req.body.Some? && Complete(req.body.value)
    && var id := req.body.value.deploymentId;
       id in s.registrations ==> s.registrations[id].key == req.key
  }

  /** The endpoint that the deployment has, or will have. */
  function EndpointOf(s: State, id: string): Endpoint {
    if id in s.registrations then s.registrations[id].endpoint else NewEndpoint(id)
  }

  /** At most the one registration, under the request's key and with its first endpoint, was added to `before`. */
  predicate AtMostRegistered(before: State, after: State, req: Request)
    requires req.body.Some?
  {
    var id := req.body.value.deploymentId;
    && after.registrations - {id} == before.registrations - {id}
    && (id in before.registrations ==> id in after.registrations)
    && (id in after.registrations ==>
          after.registrations[id].key == req.key && after.registrations[id].endpoint == EndpointOf(before, id))
  }

  /** One register call of a well-formed request: 503 without effect, or 201 with the deployment's one endpoint. */
  lemma RegisterIsIdempotent(opts: Options, s: State, req: Request)
    requires MayRegister(opts, s, req)
    ensures var (s', resp) := Register(opts, s, req);
            && MayRegister(opts, s', req)
            && AtMostRegistered(s, s', req)
            && s'.registerCalls == s.registerCalls + 1
            && ((resp == Response(503, None) && s'.registrations == s.registrations)
                || (resp == Response(201, Some(EndpointOf(s, req.body.value.deploymentId)))
                    && req.body.value.deploymentId in s'.registrations))
            && EndpointOf(s', req.body.value.deploymentId) == EndpointOf(s, req.body.value.deploymentId)
  {
  }

  /** Everything the payload must name is there. */
  predicate Named(p: Payload) {
    "" !in [p.deploymentId, p.model, p.baseUrl, p.apiKey, p.runtime]
  }

  /** The first registration of a deployment is answered with an endpoint of its own, and stored under the key. */
  lemma NewRegistrationIsAnswered(opts: Options, s: State, req: Request)
    requires opts.token == "" || req.authorization == "Bearer " + opts.token
    requires s.registerCalls >= opts.unavailableFor
    requires req.key != "" && req.body.Some? && Named(req.body.value)
    requires req.body.value.deploymentId !in s.registrations
    ensures var id := req.body.value.deploymentId;
            var endpoint := Endpoint("ep-" + id, id, "registering");
            && Register(opts, s, req).1 == Response(201, Some(endpoint))
            && Register(opts, s, req).0
               == State(s.registrations[id := Registration(endpoint, req.key)], s.registerCalls + 1)
  {
    var p := req.body.value;
    var needed := [p.deploymentId, p.model, p.baseUrl, p.apiKey, p.runtime];
    assert needed[0] != "" && needed[1] != "" && needed[2] != "" && needed[3] != "" && needed[4] != "";
  }

  /** A request without a key, without a readable body or with a field missing is refused, and nothing is stored. */
  lemma BadRequestIsExact(opts: Options, s: State, req: Request)
    ensures Register(opts, s, req).1.status == 400 <==>
              && (opts.token == "" || req.authorization == "Bearer " + opts.token)
              && s.registerCalls >= opts.unavailableFor
              && (req.key == "" || req.body.None? || !Named(req.body.value))
    ensures Register(opts, s, req).1.status == 401 <==> opts.token != "" && req.authorization != "Bearer " + opts.token
  {
    if req.body.Some? {
      var p := req.body.value;
      var needed := [p.deploymentId, p.model, p.baseUrl, p.apiKey, p.runtime];
      assert Named(p) <==> needed[0] != "" && needed[1] != "" && needed[2] != "" && needed[3] != "" && needed[4] != "";
    }
  }

  /** Every registration carries an endpoint named after its own deployment. */
  predicate EndpointsNamed(s: State) {
    forall id :: id in s.registrations ==> s.registrations[id].endpoint == Endpoint("ep-" + id, id, "registering")
  }

  /** So the body of a 201 is always the endpoint of the deployment in the request, never another one. */
  lemma AnswerIsOwnEndpoint(opts: Options, s: State, req: Request, id: string)
    requires EndpointsNamed(s)
    ensures EndpointsNamed(State(map[], 0))
    ensures EndpointsNamed(Register(opts, s, req).0)
    ensures EndpointsNamed(Unregister(opts, s, req.authorization, id).0)
    ensures Register(opts, s, req).1.status == 201 ==>
              && req.body.Some?
              && Register(opts, s, req).1.endpoint
                 == Some(Endpoint("ep-" + req.body.value.deploymentId, req.body.value.deploymentId, "registering"))
    ensures Lookup(opts, s, req.authorization, id).status == 200 ==>
              Lookup(opts, s, req.authorization, id).endpoint == Some(Endpoint("ep-" + id, id, "registering"))
  {
  }

  /** What the client makes of an answer that arrives. */
  lemma AnswersAreClassified(status: int)
    ensures Classify(Response(status, None)) ==
              if status <= 299 then Done else if 300 <= status <= 499 then Permanent else Retryable
  {
  }

  /** A conflict is answered exactly to a well-formed request that meets another key's registration. */
  lemma ConflictMeansAnotherKey(opts: Options, s: State, req: Request)
    ensures Register(opts, s, req).1.status == 409 <==>
              && Authorized(opts, req.authorization)
              && s.registerCalls + 1 > opts.unavailableFor
              && req.key != "" && req.body.Some? && Complete(req.body.value)
              && req.body.value.deploymentId in s.registrations
              && s.registrations[req.body.value.deploymentId].key != req.key
    ensures Register(opts, s, req).1.status != 201 ==> Register(opts, s, req).0.registrations == s.registrations
  {
  }

  /** Through any number of attempts, with any losses, there is at most the one registration. */
  lemma {:induction false} AttemptsRegisterOnce(opts: Options, req: Request, net: nat -> Delivery, s: State, k: nat)
    requires MayRegister(opts, s, req)
    ensures var s' := StateAfter(Attempt(opts, req, net), s, k);
            MayRegister(opts, s', req) && AtMostRegistered(s, s', req)
            && EndpointOf(s', req.body.value.deploymentId) == EndpointOf(s, req.body.value.deploymentId)
  {
    if k > 0 {
      hide StateAfter, OutcomeOf, Attempt, Register, MayRegister;
      AttemptsRegisterOnce(opts, req, net, s, k - 1);
      var was := StateAfter(Attempt(opts, req, net), s, k - 1);
      RegisterIsIdempotent(opts, was, req);
      AttemptIsExchange(opts, req, net, s, k);
      OnceMore(s, was, StateAfter(Attempt(opts, req, net), s, k), req);
    }
  }

  lemma OnceMore(a: State, b: State, c: State, req: Request)
    requires req.body.Some? && AtMostRegistered(a, b, req)
    requires AtMostRegistered(b, c, req) || c == b
    ensures AtMostRegistered(a, c, req)
  {
  }

  /** What the client saw in answer to attempt `k`, if the network delivered it. */
  function Seen(opts: Options, req: Request, net: nat -> Delivery, s: State, k: nat): Option<Response>
    requires k >= 1
  {
    if net(k) == Delivered
    then Some(Register(opts, StateAfter(Attempt(opts, req, net), s, k - 1), req).1)
    else None
  }

  /** Every attempt is answered with 503, or with 201 and the same endpoint, whether the answer arrives or not. */
  lemma AnswersAgree(opts: Options, req: Request, net: nat -> Delivery, s: State, k: nat)
    requires MayRegister(opts, s, req) && k >= 1
    ensures var op := Attempt(opts, req, net);
            var resp := Register(opts, StateAfter(op, s, k - 1), req).1;
            && resp in {Response(503, None), Response(201, Some(EndpointOf(s, req.body.value.deploymentId)))}
            && OutcomeOf(op, s)(k) != Permanent
            && (OutcomeOf(op, s)(k) == Done <==> net(k) == Delivered && resp.status == 201)
            && (OutcomeOf(op, s)(k) == Done ==> req.body.value.deploymentId in StateAfter(op, s, k).registrations)
  {
    hide StateAfter, OutcomeOf, AtMostRegistered, Attempt, Register, EndpointOf, MayRegister;
    AttemptsRegisterOnce(opts, req, net, s, k - 1);
    RegisterIsIdempotent(opts, StateAfter(Attempt(opts, req, net), s, k - 1), req);
    AttemptIsExchange(opts, req, net, s, k);
  }

  /**
   * Exactly-once registration. For every policy, every pattern of outages, lost requests, lost responses and
   * cancellations, retrying one well-formed request with one key ends with at most one registration for the
   * deployment and all others untouched, never as a permanent error, so a conflict is never seen; success means it is
   * registered, and every 201 that is seen carries the same endpoint.
   */
  lemma ExactlyOnce(opts: Options, p: Policy, req: Request, net: nat -> Delivery, s: State,
                    cancelled: nat -> bool, cut: nat -> bool, random: nat -> real)
    requires MayRegister(opts, s, req)
    ensures var op := Attempt(opts, req, net);
            var sum := DoFrom(p, Streams(OutcomeOf(op, s), cancelled, cut, random), 1);
            var after := StateAfter(op, s, sum.calls);
            && AtMostRegistered(s, after, req)
            && sum.ended != PermanentError
            && (sum.ended == Success ==> req.body.value.deploymentId in after.registrations)
            && forall k: nat :: 1 <= k <= sum.calls && Seen(opts, req, net, s, k).Some? ==>
                 Seen(opts, req, net, s, k).value in
                   {Response(503, None), Response(201, Some(EndpointOf(s, req.body.value.deploymentId)))}
  {
    var op := Attempt(opts, req, net);
    var st := Streams(OutcomeOf(op, s), cancelled, cut, random);
    CallsAreExact(p, st, 1);
    var sum := DoFrom(p, st, 1);
    hide DoFrom, GoesOn, Register, StateAfter, OutcomeOf, AtMostRegistered, Attempt, MayRegister, EndpointOf;
    AttemptsRegisterOnce(opts, req, net, s, sum.calls);
    forall k: nat | 1 <= k <= sum.calls && Seen(opts, req, net, s, k).Some?
      ensures Seen(opts, req, net, s, k).value in
                {Response(503, None), Response(201, Some(EndpointOf(s, req.body.value.deploymentId)))}
    {
      AnswersAgree(opts, req, net, s, k);
    }
    if sum.calls >= 1 {
      AnswersAgree(opts, req, net, s, sum.calls);
    }
  }

  // ----- without losses, the number of calls is known -----

  /** One delivered call of a well-formed request. */
  lemma DeliveredCall(opts: Options, req: Request, s: State)
    requires MayRegister(opts, s, req)
    ensures var (s', outcome) := Exchange(opts, req, Delivered, s);
            && s'.registerCalls == s.registerCalls + 1
            && outcome == if s.registerCalls + 1 <= opts.unavailableFor then Retryable else Done
  {
  }

  /** While the gateway is unavailable each delivered call is counted and answered 503. */
  lemma {:induction false} OutageLasts(opts: Options, req: Request, net: nat -> Delivery, s: State, k: nat)
    requires MayRegister(opts, s, req) && forall i :: net(i) == Delivered
    ensures var op := Attempt(opts, req, net);
            && StateAfter(op, s, k).registerCalls == s.registerCalls + k
            && (k >= 1 ==> OutcomeOf(op, s)(k) ==
                             if s.registerCalls + k <= opts.unavailableFor then Retryable else Done)
  {
    hide *;
    var op := Attempt(opts, req, net);
    if k == 0 {
      StartsAt(op, s);
    } else {
      var was := StateAfter(op, s, k - 1);
      OutageLasts(opts, req, net, s, k - 1);
      AttemptsRegisterOnce(opts, req, net, s, k - 1);
      AttemptIsExchange(opts, req, net, s, k);
      DeliveredCall(opts, req, was);
    }
  }

  /**
   * Without losses and cancellation, a gateway that is unavailable for its first N calls makes the client succeed after
   * exactly N + 1 calls when the policy allows that many, and otherwise give up after all its attempts.
   */
  lemma SucceedsAfterOutage(opts: Options, p: Policy, req: Request, net: nat -> Delivery, s: State, cut: nat -> bool,
                            random: nat -> real)
    requires MayRegister(opts, s, req) && s.registerCalls == 0 && opts.unavailableFor >= 0
    requires forall i :: net(i) == Delivered && !cut(i)
    ensures var op := Attempt(opts, req, net);
            var sum := DoFrom(p, Streams(OutcomeOf(op, s), (k: nat) => false, cut, random), 1);
            if opts.unavailableFor < Attempts(p)
            then sum.ended == Success && sum.calls == opts.unavailableFor + 1
            else sum.ended == Exhausted && sum.calls == Attempts(p)
  {
    var op := Attempt(opts, req, net);
    var st := Streams(OutcomeOf(op, s), (k: nat) => false, cut, random);
    CallsAreExact(p, st, 1);
    var sum := DoFrom(p, st, 1);
    forall k: nat | 1 <= k <= Attempts(p)
      ensures st.out(k) == if k <= opts.unavailableFor then Retryable else Done
    {
      OutageLasts(opts, req, net, s, k);
    }
    hide DoFrom, Attempt, StateAfter, OutcomeOf, MayRegister;
    var n: nat := opts.unavailableFor + 1;
    assert n < sum.calls ==> GoesOn(p, st, n);
  }

  /**
   * A wrong token is refused before anything is counted, once and for all: one attempt, and the gateway is as before.
   */
  lemma WrongTokenIsPermanent(opts: Options, p: Policy, req: Request, s: State, cut: nat -> bool, random: nat -> real)
    requires !Authorized(opts, req.authorization)
    ensures var op := Attempt(opts, req, (k: nat) => Delivered);
            var sum := DoFrom(p, Streams(OutcomeOf(op, s), (k: nat) => false, cut, random), 1);
            sum == Summary(PermanentError, 1, 0) && StateAfter(op, s, sum.calls) == s
  {
    var net := (k: nat) => Delivered;
    var op := Attempt(opts, req, net);
    assert StateAfter(op, s, 0) == s;
    hide StateAfter, OutcomeOf, Attempt;
    AttemptIsExchange(opts, req, net, s, 1);
  }

  /**
   * What registering added, unregistering takes away, once or any number of times; then the deployment is not found.
   */
  lemma UnregisterUndoesRegister(opts: Options, s: State, req: Request)
    requires MayRegister(opts, s, req) && !opts.failUnregister && req.body.value.deploymentId !in s.registrations
    ensures var id := req.body.value.deploymentId;
            var (s1, _) := Register(opts, s, req);
            var (s2, resp) := Unregister(opts, s1, req.authorization, id);
            && resp.status == 204
            && s2.registrations == s.registrations
            && Unregister(opts, s2, req.authorization, id) == (s2, resp)
            && Lookup(opts, s2, req.authorization, id).status == 404
            && (Register(opts, s, req).1.status == 201 ==>
                  Lookup(opts, s1, req.authorization, id) == Response(200, Register(opts, s, req).1.endpoint))
  {
    var id := req.body.value.deploymentId;
    assert s.registrations[id := Registration(NewEndpoint(id), req.key)] - {id} == s.registrations;
    assert s.registrations - {id} == s.registrations;
  }
}

/**
 * Reading and writing a policy's permanent settings through its handle (policy.go). There
 * is one transport, a dict, and one condition under which it loses something.
 */
module PolicyTransport {
  import opened Seqs
  import opened Values
  import opened Bus
  import opened Handles
  import PolicyCodec

  type PolicySettings = PolicyCodec.PolicySettings

  function UpdatePolicy<W>(serve: Server<W>, s: Session<W>, h: Handle, p: PolicySettings)
    : (Session<W>, Handle, Result<Body>)
  {
    CallOn(serve, s, PolicyKind, h, Update, [DictArg(PolicyCodec.DictOf(p))])
  }

  function DecodePolicy(r: Result<Body>): Result<PolicySettings> {
    match DictIn(r)
    case Fail(e) => Fail(e)
    case Ok(d) => Ok(PolicyCodec.SettingsIn(d))
  }

  function ReadPolicyObject<W>(serve: Server<W>, s: Session<W>, h: Handle)
    : (Session<W>, Handle, Result<PolicySettings>)
  {
    var (s', h', r) := CallOn(serve, s, PolicyKind, h, GetSettings, []);
    (s', h', DecodePolicy(r))
  }

  /** What a server holds for the policy at a path. */
  type PolicyStore<!W> = (W, string) -> Option<Dict>

  /** A server that keeps the dict written to a policy and gives it back on request. */
  ghost predicate KeepsPolicies<W(!new)>(serve: Server<W>, store: PolicyStore<W>) {
    && (forall w, p, d :: PolicyKept(serve, store, w, p, d))
    && (forall w, p :: PolicyReadBack(serve, store, w, p))
  }

  ghost predicate PolicyKept<W>(serve: Server<W>, store: PolicyStore<W>, w: W, p: string, d: Dict) {
    var (w', r) := serve(w, ObjectCall(PolicyKind, p, Update, [DictArg(d)]));
    r.Returned? ==> store(w', p) == Some(d)
  }

  ghost predicate PolicyReadBack<W>(serve: Server<W>, store: PolicyStore<W>, w: W, p: string) {
    match store(w, p)
    case None => true
    case Some(d) =>
      var (_, r) := serve(w, ObjectCall(PolicyKind, p, GetSettings, []));
      r.Returned? && r.body.DictBody? && PolicyCodec.DictReply(d, r.body.dict)
  }

  /**
   * Settings that Update accepted are what Settings then returns, an empty target read as
   * CONTINUE, if and only if the server answers without a "rules_str" of its own or the
   * policy has no rich rules.
   */
  lemma UpdateThenReadPolicy<W(!new)>(
      serve: Server<W>, store: PolicyStore<W>, s: Session<W>, h: Handle, p: PolicySettings)
    requires KeepsPolicies(serve, store)
    requires UpdatePolicy(serve, s, h, p).2.Ok? && UpdatePolicy(serve, s, h, p).1.path != ""
    ensures var (s', h', _) := UpdatePolicy(serve, s, h, p);
            var reply := DictIn(CallOn(serve, s', PolicyKind, h', GetSettings, []).2);
            && reply.Ok?
            && (ReadPolicyObject(serve, s', h').2
                == Ok(p.(target := if p.target == "" then "CONTINUE" else p.target))
                <==> RulesStrKey !in reply.value || p.richRules == [])
  {
    hide PolicyCodec.DictReply, PolicyCodec.SettingsIn, PolicyCodec.DictOf;
    var (s', h', _) := UpdatePolicy(serve, s, h, p);
    var (s1, _, _) := Resolve(serve, s, PolicyKind, h);
    var d := PolicyCodec.DictOf(p);
    assert PolicyKept(serve, store, s1.world, h'.path, d);
    var c := ObjectCall(PolicyKind, h'.path, Update, [DictArg(d)]);
    assert s' == Send(serve, s1, c).0 && serve(s1.world, c).1.Returned?;
    assert PolicyReadBack(serve, store, s'.world, h'.path);
    var (_, r) := serve(s'.world, ObjectCall(PolicyKind, h'.path, GetSettings, []));
    PolicyCodec.PolicyRoundTrip(p, r.body.dict);
  }
}

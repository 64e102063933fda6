/**
 The plan and apply operations of enos_remote_exec (internal/plugin/resource_remote_exec.go), the
 router that answers Terraform (internal/server/resourcerouter/apply.go), and what they keep over
 any run of plan/apply cycles. The transport is modelled in Transports; here
 its failures are parameters.
 */
module RemoteExecResource {
  import opened Wrappers
  import opened Contexts
  import opened ExecDigest
  import opened OutputBuffer
  import opened RemoteExec

  // ---------------------------------------------------------------------------------------------
  // What the two operations promise

  const NO_STATE := Values(Null, Null, Null, Null, Settings(Null, Null, Null, Null))

  ghost function DigestOf(h: Hash, s: Settings, fs: Files): string
    requires Readable(ConfigOf(s), fs)
  {
    Digest(h, ConfigOf(s), fs)
  }

  /** The plan announces new output. */
  ghost predicate PlansRun(h: Hash, fs: Files, prior: Values, s: Settings)
    requires !HasUnknown(s) ==> Readable(ConfigOf(s), fs)
  {
    !prior.id.Known? || HasUnknown(s) || (prior.sum.Known? && prior.sum.value != DigestOf(h, s, fs))
  }

  ghost function Planned(h: Hash, fs: Files, prior: Values, proposed: Values): Values
    requires !HasUnknown(proposed.settings) ==> Readable(ConfigOf(proposed.settings), fs)
  {
    var runs := PlansRun(h, fs, prior, proposed.settings);
    Values(
      if prior.id.Known? then proposed.id else Unknown,
      if !HasUnknown(proposed.settings) then Known(DigestOf(h, proposed.settings, fs))
      else if !prior.id.Known? && proposed.sum.Known? then proposed.sum
      else Unknown,
      if runs then Unknown else proposed.stdout,
      if runs then Unknown else proposed.stderr,
      proposed.settings)
  }

  /** Apply runs the commands. */
  predicate Runs(prior: Values, planned: Values) {
    !prior.id.Known? || !prior.sum.Known? || !planned.sum.Known? || prior.sum.value != planned.sum.value
  }

  function WithID(prior: Values, planned: Values, newID: string): Values {
    if prior.id.Known? then planned else planned.(id := Known(newID))
  }

  function WithOutput(v: Values, outs: seq<string>, errs: seq<string>): Values {
    v.(stdout := Known(Joined(outs)), stderr := Known(Joined(errs)))
  }

  ghost function Applied(h: Hash, fs: Files, prior: Values, planned: Values, newID: string,
                         outs: seq<string>, errs: seq<string>): Values
    requires Readable(ConfigOf(planned.settings), fs)
  {
    var v := WithID(prior, planned, newID);
    if !Runs(prior, planned) then v
    else
      WithOutput(v, outs, errs).(
        sum := if planned.sum.Known? then planned.sum else Known(DigestOf(h, planned.settings, fs)))
  }

  predicate HasCommands(s: Settings) {
    s.content.Known? || s.inline.Known? || s.scripts.Known?
  }

  /** The outcome of an apply; only Done is free of error diagnostics. */
  datatype Outcome =
    | Done
    | Refused(reason: string)      // before anything was set
    | NoClient(reason: string)     // no connection to the host
    | CommandFailed(reason: string)
    | NoDigest(error: DigestError) // everything ran, then the context was found done

  /** A remoteExecStateV1; the settings are never assigned. */
  class ResourceState {
    var id: Attr<string>
    var sum: Attr<string>
    var stdout: Attr<string>
    var stderr: Attr<string>
    const settings: Settings

    constructor (v: Values)
      ensures Current() == v
    {
      id, sum, stdout, stderr, settings := v.id, v.sum, v.stdout, v.stderr, v.settings;
    }

    function Current(): Values
      reads this
    {
      Values(id, sum, stdout, stderr, settings)
    }

    /** PlanResourceChange on the proposed state; `transport` is the error of its transport, if any. */
    method PlanResourceChange(h: Hash, fs: Files, prior: Values, transport: Option<string>, doneAt: nat)
      returns (err: Option<string>)
      modifies this
      ensures err.None? ==> !HasUnknown(settings) ==> Readable(ConfigOf(settings), fs)
      ensures err.None? ==> Current() == Planned(h, fs, prior, old(Current()))
      ensures err.Some? ==> Current() == old(Current())
      ensures err.None? <== transport.None? && Readable(ConfigOf(settings), fs)
                            && doneAt > |ConfigOf(settings).scripts.GetOr([])|
    {
      hide HasUnknown, ConfigOf, Digest;
      if transport.Some? { return transport; }
      var vague := AnyUnknown(settings);
      if !vague {
        var sha := ComputeSHA256(h, ConfigOf(settings), fs, doneAt);
        if sha.Err? { return Some("failed to read all scripts"); }
        sum := Known(sha.value);
      } else if !sum.Known? {
        sum := Unknown;
      }
      if !prior.id.Known? {
        id, stdout, stderr := Unknown, Unknown, Unknown;
      } else if vague {
        sum, stdout, stderr := Unknown, Unknown, Unknown;
      } else if prior.sum.Known? && sum.Known? && prior.sum.value != sum.value {
        stdout, stderr := Unknown, Unknown;
      }
      return None;
    }

    /** Validate: there is something to run and every script can be opened. */
    method Validate(ctx: Context, fs: Files) returns (err: Option<string>)
      modifies ctx
      ensures err.None? <==>
              && old(ctx.left) > 0 && (settings.content.Known? || settings.inline.Known? || settings.scripts.Known?)
              && Readable(ConfigOf(settings), fs)
    {
      hide HasUnknown, Strings;
      var over := ctx.Poll();
      if over { return Some("context done"); }
      if !HasCommands(settings) { return Some("nothing to run"); }
      var c := ConfigOf(settings);
      if c.scripts.Some? {
        for i := 0 to |c.scripts.value|
          invariant forall j :: 0 <= j < i ==> c.scripts.value[j] in fs
        {
          if c.scripts.value[i] !in fs { return Some("unable to open script file"); }
        }
      }
      return None;
    }

    /**
     ApplyResourceChange on the planned state, which is not a deletion. `newID` is what random.ID
     yields; `transport` and `client` are the errors of resolving the transport and of connecting.
     */
    method ApplyResourceChange(r: Runner, fs: Files, prior: Values, newID: string,
                               transport: Option<string>, client: Option<string>)
      returns (result: Outcome, ghost ran: seq<Job>)
      modifies this, r.host, r.ctx
      ensures r.host.log == old(r.host.log) + ran
      ensures !result.Refused? ==> Readable(ConfigOf(settings), fs)
      ensures result.Refused? ==> ran == [] && Current() == old(Current())
      ensures result.NoClient? ==> ran == [] && Current() == WithID(prior, old(Current()), newID)
      ensures var from, outs, errs := |old(r.host.log)|, Outs(r.host.reply, |old(r.host.log)|, ran),
                Errs(r.host.reply, |old(r.host.log)|, ran);
              var withOutput := WithOutput(WithID(prior, old(Current()), newID), outs, errs);
              && (result.Done? ==> Current() == Applied(r.h, fs, prior, old(Current()), newID, outs, errs))
              && (result.CommandFailed? || result.NoDigest? ==> Current() == withOutput)
              && (result.CommandFailed? ==> LastFailed(r.host.reply, from, ran) || r.ctx.left == 0)
              && (result.Done? || result.NoDigest? ==> !LastFailed(r.host.reply, from, ran))
      ensures result.CommandFailed? || result.NoDigest? || (result.Done? && Runs(prior, old(Current()))) ==>
              && stdout == Known(Joined(Outs(r.host.reply, |old(r.host.log)|, ran)))
              && stderr == Known(Joined(Errs(r.host.reply, |old(r.host.log)|, ran)))
      ensures result.Done? && !Runs(prior, old(Current())) ==> stdout == old(stdout) && stderr == old(stderr)
      ensures var planned := old(Current());
              && (result.Done? && !Runs(prior, planned) ==> ran == [])
              && (result.CommandFailed? || result.NoDigest? || (result.Done? && Runs(prior, planned)) ==>
                    var o := OrderOf(r.h, WithID(prior, planned, newID).id, settings, fs);
                    && Begun(r.host.reply, |old(r.host.log)|, o, ran)
                    && (!result.CommandFailed? ==> |ran| == |o.bodies|))
    {
      hide HasUnknown, ConfigOf, Digest, Begun, Joined, HasCommands, Readable, AllBodies, Outs, Errs;
      ReadableIff(ConfigOf(settings), fs);
      ran := [];
      if transport.Some? { return Refused(transport.value), []; }
      var invalid := Validate(r.ctx, fs);
      if invalid.Some? { return Refused(invalid.value), []; }
      ghost var was := Current();
      if !prior.id.Known? { id := Known(newID); }
      if Runs(prior, Current()) {
        if client.Some? { return NoClient(client.value), []; }
        var ui, err;
        ui, err, ran := r.ExecuteCommands(settings, ValueOf(id), fs, r.host.log);
        stdout, stderr := Known(ui.stdoutBuf), Known(ui.stderrBuf);
        if err.Some? { return CommandFailed(err.value), ran; }
        if !sum.Known? {
          var sha := ComputeSHA256(r.h, ConfigOf(settings), fs, r.ctx.left);
          if sha.Err? { return NoDigest(sha.error), ran; }
          sum := Known(sha.value);
        }
      }
      return Done, ran;
    }
  }

  /**
   The router's answer to an apply: a new state only without error diagnostics, so whatever a failed
   apply has set on its state object never reaches Terraform.
   */
  method RouteApply(state: ResourceState, r: Runner, fs: Files, prior: Values, newID: string,
                    transport: Option<string>, client: Option<string>)
    returns (response: Option<Values>, result: Outcome, ghost ran: seq<Job>)
    modifies state, r.host, r.ctx
    ensures r.host.log == old(r.host.log) + ran
    ensures response.Some? <==> result.Done?
    ensures response.Some? ==>
              && Readable(ConfigOf(state.settings), fs)
              && response.value ==
                 Applied(r.h, fs, prior, old(state.Current()), newID, Outs(r.host.reply, |old(r.host.log)|, ran),
                         Errs(r.host.reply, |old(r.host.log)|, ran))
              && (!Runs(prior, old(state.Current())) ==> ran == [])
  {
    hide Applied, ConfigOf, Readable, Begun, LastFailed, Outs, Errs, Runs;
    result, ran := state.ApplyResourceChange(r, fs, prior, newID, transport, client);
    response := if result.Done? then Some(state.Current()) else None;
  }

  /** The state Terraform keeps: the new one, or the prior one if the answer has none. */
  function Kept(prior: Values, response: Option<Values>): Values {
    response.GetOr(prior)
  }

  /** tfString.Value: the empty string for a value that is not set. */
  function ValueOf(a: Attr<string>): string {
    if a.Known? then a.value else ""
  }

  /** What an apply runs. */
  ghost function OrderOf(h: Hash, id: Attr<string>, s: Settings, fs: Files): Order
  {
    Order(h, ValueOf(id), s.env, AllBodies(ConfigOf(s), fs))
  }

  /**
   Which jobs those are, in this order: the non-empty inline commands, the scripts, the content;
   each is copied to a file of its own, named after the resource and the digest of its body, and has
   the whole environment when all of it is known.
   */
  lemma JobsAre(reply: (nat, Job) -> Reply, from: nat, h: Hash, id: string, s: Settings, fs: Files, ran: seq<Job>)
    requires Begun(reply, from, OrderOf(h, Known(id), s, fs), ran)
    ensures var c := ConfigOf(s);
            var inline, scripts := NonEmpty(c.inline.GetOr([])), c.scripts.GetOr([]);
            var n, m := |inline|, |inline| + |scripts|;
            && |ran| <= m + 1 && (|ran| == m + 1 ==> c.content == Some(ran[m].body))
            && (forall i :: 0 <= i < |ran| && i < n ==> ran[i].body == inline[i])
            && (forall i :: 0 <= i < |scripts| && n + i < |ran| ==>
                  scripts[i] in fs && ran[n + i].body == fs[scripts[i]])
    ensures forall i :: 0 <= i < |ran| - 1 ==> !reply(from + i, ran[i]).failed
    ensures forall i :: 0 <= i < |ran| ==> ran[i].dest == "/tmp/" + id + "-" + h(ran[i].body) + ".sh"
    ensures forall i :: 0 <= i < |ran| && s.env.Known? && (forall k :: k in s.env.value ==> s.env.value[k].Known?) ==>
              ran[i].env.Keys == s.env.value.Keys &&
              forall k :: k in s.env.value ==> s.env.value[k] == Known(ran[i].env[k])
    ensures forall i :: 0 <= i < |ran| && !s.env.Known? ==> ran[i].env == map[]
  {
    var o := OrderOf(h, Known(id), s, fs);
    hide NonEmpty, ConfigOf, AllBodies, Dest, EnvGiven, NoBody;
    forall i | 0 <= i < |ran|
      ensures ran[i].dest == "/tmp/" + id + "-" + h(ran[i].body) + ".sh" && EnvGiven(s.env, ran[i].env)
      ensures AllBodies(ConfigOf(s), fs)[i] == Some(ran[i].body)
    {
      assert JobFor(o, i, ran[i]);
      DestIs(h, id, ran[i].body);
    }
    EnvIsAll(s.env);
    BodiesRun(ConfigOf(s), fs, ran);
  }

  lemma DestIs(h: Hash, id: string, body: string)
    ensures Dest(h, id, body) == "/tmp/" + id + "-" + h(body) + ".sh"
  {
  }

  /** What ConfigOf takes of the settings: known attributes, and lists and maps all of whose parts are known. */
  lemma ConfigIs(s: Settings)
    ensures var c := ConfigOf(s);
            && c.content == (if s.content.Known? then Some(s.content.value) else None)
            && AllOf(s.inline, c.inline) && AllOf(s.scripts, c.scripts)
            && (c.env.Some? <==> s.env.Known? && forall k :: k in s.env.value ==> s.env.value[k].Known?)
            && (c.env.Some? ==>
                  c.env.value.Keys == s.env.value.Keys &&
                  forall k :: k in c.env.value ==> s.env.value[k] == Known(c.env.value[k]))
  {
  }

  ghost predicate AllOf(l: Attr<seq<Attr<string>>>, strs: Option<seq<string>>) {
    && (strs.Some? <==> l.Known? && forall e :: e in l.value ==> e.Known?)
    && (strs.Some? ==>
          |strs.value| == |l.value| && forall i :: 0 <= i < |l.value| ==> l.value[i] == Known(strs.value[i]))
  }

  lemma BodiesRun(c: ExecConfig, fs: Files, ran: seq<Job>)
    requires |ran| <= |AllBodies(c, fs)| && forall i :: 0 <= i < |ran| ==> AllBodies(c, fs)[i] == Some(ran[i].body)
    ensures var inline, scripts := NonEmpty(c.inline.GetOr([])), c.scripts.GetOr([]);
            var n, m := |inline|, |inline| + |scripts|;
            && |ran| <= m + 1 && (|ran| == m + 1 ==> c.content == Some(ran[m].body))
            && (forall i :: 0 <= i < |ran| && i < n ==> ran[i].body == inline[i])
            && (forall i :: 0 <= i < |scripts| && n + i < |ran| ==>
                  scripts[i] in fs && ran[n + i].body == fs[scripts[i]])
  {
    BodiesAre(c, fs);
    hide AllBodies, NonEmpty;
    var scripts, n := c.scripts.GetOr([]), |NonEmpty(c.inline.GetOr([]))|;
    forall i | 0 <= i < |scripts| && n + i < |ran| ensures scripts[i] in fs && ran[n + i].body == fs[scripts[i]] {
      assert AllBodies(c, fs)[n + i] == Some(ran[n + i].body);
    }
  }

  lemma BodiesAre(c: ExecConfig, fs: Files)
    ensures var all, inline, scripts := AllBodies(c, fs), NonEmpty(c.inline.GetOr([])), c.scripts.GetOr([]);
            var n, m := |inline|, |inline| + |scripts|;
            && |all| == m + (if c.content.Some? then 1 else 0)
            && (forall i :: 0 <= i < n ==> all[i] == Some(inline[i]))
            && (forall i :: 0 <= i < |scripts| ==>
                  all[n + i] == if scripts[i] in fs then Some(fs[scripts[i]]) else None)
            && (c.content.Some? ==> all[m] == c.content)
  {
    hide NonEmpty;
    OpenedAt(c.scripts.GetOr([]), fs);
  }

  lemma EnvIsAll(env: Attr<map<string, Attr<string>>>)
    ensures forall given :: EnvGiven(env, given) ==>
      && (!env.Known? ==> given == map[])
      && (env.Known? && (forall k :: k in env.value ==> env.value[k].Known?) ==>
            given.Keys == env.value.Keys && forall k :: k in env.value ==> env.value[k] == Known(given[k]))
  {
  }

  /** hasUnknownAttributes, looking at the elements one after the other. */
  method AnyUnknown(s: Settings) returns (b: bool)
    ensures b == HasUnknown(s)
    ensures b <==>
            || s.content.Unknown?
            || s.scripts.Unknown? || (s.scripts.Known? && exists e :: e in s.scripts.value && !e.Known?)
            || s.inline.Unknown? || (s.inline.Known? && exists e :: e in s.inline.value && !e.Known?)
            || s.env.Unknown? || (s.env.Known? && exists k :: k in s.env.value && !s.env.value[k].Known?)
  {
    if s.content.Unknown? || s.scripts.Unknown? || s.inline.Unknown? || s.env.Unknown? { return true; }
    var l := AnyUnknownElement(s.scripts);
    var m := AnyUnknownElement(s.inline);
    if l || m { return true; }
    if s.env.Known? {
      var todo := s.env.value.Keys;
      while todo != {}
        invariant todo <= s.env.value.Keys
        invariant forall k :: k in s.env.value.Keys - todo ==> s.env.value[k].Known?
      {
        var k :| k in todo;
        if !s.env.value[k].Known? { return true; }
        todo := todo - {k};
      }
    }
    return false;
  }

  method AnyUnknownElement(l: Attr<seq<Attr<string>>>) returns (b: bool)
    requires !l.Unknown?
    ensures b == ListUnknown(l)
  {
    if l.Null? { return false; }
    for i := 0 to |l.value|
      invariant forall j :: 0 <= j < i ==> l.value[j].Known?
    {
      if !l.value[i].Known? { return true; }
    }
    return false;
  }

  // ---------------------------------------------------------------------------------------------
  // Cycles of plan and apply

  /** Apply sees the planned settings with every unknown part replaced by something. */
  predicate Becomes<T(==)>(planned: Attr<T>, applied: Attr<T>) {
    if planned.Unknown? then !applied.Unknown? else applied == planned
  }

  ghost predicate Resolves(s: Settings, s': Settings) {
    && Becomes(s.content, s'.content) && ListResolves(s.inline, s'.inline) && ListResolves(s.scripts, s'.scripts)
    && (if s.env.Known?
        then s'.env.Known? && s'.env.value.Keys == s.env.value.Keys
             && forall k :: k in s.env.value ==> Becomes(s.env.value[k], s'.env.value[k])
        else Becomes(s.env, s'.env))
  }

  ghost predicate ListResolves(l: Attr<seq<Attr<string>>>, l': Attr<seq<Attr<string>>>) {
    if l.Known?
    then l'.Known? && |l'.value| == |l.value| && forall i :: 0 <= i < |l.value| ==> Becomes(l.value[i], l'.value[i])
    else Becomes(l, l')
  }

  lemma KnownResolvesToItself(s: Settings, s': Settings)
    requires Resolves(s, s') && !HasUnknown(s)
    ensures s' == s
  {
    assert s.inline.Known? ==> s'.inline.value == s.inline.value;
    assert s.scripts.Known? ==> s'.scripts.value == s.scripts.value;
    assert s.env.Known? ==> s'.env.value == s.env.value;
  }

  /** Terraform proposes the new settings with the computed attributes of the prior state. */
  predicate Proposes(prior: Values, proposed: Values) {
    if prior == NO_STATE
    then !proposed.id.Known? && !proposed.sum.Known? && !proposed.stdout.Known? && !proposed.stderr.Known?
    else proposed == prior.(settings := proposed.settings)
  }

  /** One cycle with the files `fs`; it is `done` if plan and apply both end without error. */
  datatype Cycle = Cycle(
    fs: Files, proposed: Values, settings: Settings, newID: string,
    outs: seq<string>, errs: seq<string>, done: bool)

  ghost predicate CanStart(prior: Values, c: Cycle) {
    && Proposes(prior, c.proposed) && Resolves(c.proposed.settings, c.settings)
    && Readable(ConfigOf(c.settings), c.fs)
  }

  lemma StartIsReadable(prior: Values, c: Cycle)
    requires CanStart(prior, c)
    ensures !HasUnknown(c.proposed.settings) ==> Readable(ConfigOf(c.proposed.settings), c.fs)
  {
    hide Resolves, HasUnknown, Readable, ConfigOf;
    if !HasUnknown(c.proposed.settings) { KnownResolvesToItself(c.proposed.settings, c.settings); }
  }

  ghost function PlanOf(h: Hash, prior: Values, c: Cycle): Values
    requires CanStart(prior, c)
  {
    StartIsReadable(prior, c);
    Planned(h, c.fs, prior, c.proposed)
  }

  ghost function Next(h: Hash, prior: Values, c: Cycle): Values
    requires CanStart(prior, c)
  {
    Applied(h, c.fs, prior, PlanOf(h, prior, c).(settings := c.settings), c.newID, c.outs, c.errs)
  }

  ghost predicate RunsCommands(h: Hash, prior: Values, c: Cycle)
    requires CanStart(prior, c)
  {
    Runs(prior, PlanOf(h, prior, c).(settings := c.settings))
  }

  /** The invariant: everything computed is known and the sum is that of the settings. */
  ghost predicate Settled(h: Hash, fs: Files, v: Values) {
    && v.id.Known? && v.stdout.Known? && v.stderr.Known?
    && Readable(ConfigOf(v.settings), fs) && v.sum == Known(DigestOf(h, v.settings, fs))
  }

  predicate Complete(v: Values) {
    v.id.Known? && v.sum.Known? && v.stdout.Known? && v.stderr.Known?
  }

  /** Apply keeps whatever the plan did not leave unknown; a null is kept as well. */
  predicate Keeps(planned: Attr<string>, applied: Attr<string>) {
    !planned.Unknown? ==> applied == planned
  }

  /** A successful cycle ends settled, keeps the ID of an existing resource and the planned values. */
  lemma CycleSettles(h: Hash, prior: Values, c: Cycle)
    requires CanStart(prior, c) && (prior == NO_STATE || Complete(prior))
    ensures var planned, next := PlanOf(h, prior, c), Next(h, prior, c);
            && Settled(h, c.fs, next) && next.settings == c.settings
            && next.id == (if prior == NO_STATE then Known(c.newID) else prior.id)
            && Keeps(planned.id, next.id) && Keeps(planned.sum, next.sum)
            && Keeps(planned.stdout, next.stdout) && Keeps(planned.stderr, next.stderr)
  {
    hide Resolves, HasUnknown, Digest, Readable, ConfigOf, Joined;
    StartIsReadable(prior, c);
    if !HasUnknown(c.proposed.settings) {
      KnownResolvesToItself(c.proposed.settings, c.settings);
    }
  }

  /** A plan leaves unknown exactly what its apply will find out. */
  lemma PlanAnnounces(h: Hash, prior: Values, c: Cycle)
    requires CanStart(prior, c) && (prior == NO_STATE || Complete(prior))
    ensures var planned := PlanOf(h, prior, c);
            && (planned.id.Unknown? <==> prior == NO_STATE)
            && (planned.stdout.Unknown? <==> RunsCommands(h, prior, c))
            && (planned.stderr.Unknown? <==> RunsCommands(h, prior, c))
            && (HasUnknown(c.proposed.settings) ==> planned.sum.Unknown?)
            && (!HasUnknown(c.proposed.settings) ==> planned.sum == Known(DigestOf(h, c.settings, c.fs)))
            && planned.settings == c.proposed.settings
  {
    hide Resolves, HasUnknown, Digest, Readable, ConfigOf, Joined;
    StartIsReadable(prior, c);
    if !HasUnknown(c.proposed.settings) { KnownResolvesToItself(c.proposed.settings, c.settings); }
    if prior != NO_STATE { RunsIff(h, prior, c); }
  }

  /** The outputs after a successful cycle: those of its commands, or the ones that were there. */
  lemma CycleOutputs(h: Hash, prior: Values, c: Cycle)
    requires CanStart(prior, c) && (prior == NO_STATE || Complete(prior))
    ensures RunsCommands(h, prior, c) ==>
              && Next(h, prior, c).stdout == Known(Joined(c.outs))
              && Next(h, prior, c).stderr == Known(Joined(c.errs))
    ensures !RunsCommands(h, prior, c) ==>
              prior != NO_STATE && Next(h, prior, c).stdout == prior.stdout && Next(h, prior, c).stderr == prior.stderr
  {
    hide Resolves, HasUnknown, Digest, Readable, ConfigOf, Joined;
    if prior != NO_STATE { RunsIff(h, prior, c); }
  }

  /** The commands of an existing resource are run exactly when something is unknown or changed. */
  lemma RunsIff(h: Hash, prior: Values, c: Cycle)
    requires CanStart(prior, c) && Complete(prior)
    ensures RunsCommands(h, prior, c) <==>
            HasUnknown(c.proposed.settings) || prior.sum != Known(DigestOf(h, c.settings, c.fs))
    ensures !RunsCommands(h, prior, c) ==> Next(h, prior, c) == prior.(settings := c.settings)
  {
    hide Resolves, HasUnknown, Digest, Readable, ConfigOf, Joined;
    StartIsReadable(prior, c);
    if !HasUnknown(c.proposed.settings) {
      KnownResolvesToItself(c.proposed.settings, c.settings);
    }
  }

  /** Applying an unchanged, fully known configuration again runs nothing and changes nothing. */
  lemma Idle(h: Hash, prior: Values, c: Cycle)
    requires CanStart(prior, c) && Settled(h, c.fs, prior)
    requires c.proposed.settings == prior.settings && !HasUnknown(prior.settings)
    ensures !RunsCommands(h, prior, c) && PlanOf(h, prior, c) == Next(h, prior, c) == prior
  {
    hide Resolves, HasUnknown, Digest, Readable, ConfigOf, Joined;
    KnownResolvesToItself(c.proposed.settings, c.settings);
    RunsIff(h, prior, c);
  }

  /** What Terraform holds after a cycle. */
  ghost function After(h: Hash, prior: Values, c: Cycle): Values
    requires c.done ==> CanStart(prior, c)
  {
    Kept(prior, if c.done then Some(Next(h, prior, c)) else None)
  }

  /**
   One cycle: plan, replace what was unknown in the settings, and apply; after an error in either
   Terraform keeps the prior state.
   */
  method RunCycle(r: Runner, fs: Files, prior: Values, proposed: Values, settings: Settings, newID: string,
                  planTransport: Option<string>, doneAt: nat, transport: Option<string>, client: Option<string>)
    returns (kept: Values, ghost c: Cycle, ghost ran: seq<Job>)
    requires Proposes(prior, proposed) && Resolves(proposed.settings, settings)
    modifies r.host, r.ctx
    ensures r.host.log == old(r.host.log) + ran
    ensures c == Cycle(fs, proposed, settings, newID, Outs(r.host.reply, |old(r.host.log)|, ran),
                       Errs(r.host.reply, |old(r.host.log)|, ran), c.done)
    ensures |c.outs| == |c.errs| <= |ran| && (c.done ==> |c.outs| == |ran|)
    ensures forall i :: 0 <= i < |c.outs| ==>
              && c.outs[i] == r.host.reply(|old(r.host.log)| + i, ran[i]).stdout
              && c.errs[i] == r.host.reply(|old(r.host.log)| + i, ran[i]).stderr
    ensures c.done ==> CanStart(prior, c) && (!RunsCommands(r.h, prior, c) ==> ran == [])
    ensures kept == After(r.h, prior, c)
  {
    hide Resolves, HasUnknown, Readable, ConfigOf, Planned, Applied, Runs, Outs, Errs;
    ran := [];
    c := Cycle(fs, proposed, settings, newID, [], [], false);
    var plan := new ResourceState(proposed);
    var err := plan.PlanResourceChange(r.h, fs, prior, planTransport, doneAt);
    if err.Some? {
      NothingRan(r.host.reply, |r.host.log|);
      return prior, c, ran;
    }
    var state := new ResourceState(plan.Current().(settings := settings));
    var response, result;
    response, result, ran := RouteApply(state, r, fs, prior, newID, transport, client);
    c := Cycle(fs, proposed, settings, newID, Outs(r.host.reply, |old(r.host.log)|, ran),
               Errs(r.host.reply, |old(r.host.log)|, ran), response.Some?);
    OutputsAt(r.host.reply, |old(r.host.log)|, ran);
    kept := Kept(prior, response);
  }

  lemma OutputsAt(reply: (nat, Job) -> Reply, from: nat, ran: seq<Job>)
    ensures |Outs(reply, from, ran)| == |Errs(reply, from, ran)| == |ran|
    ensures forall i :: 0 <= i < |ran| ==>
              && Outs(reply, from, ran)[i] == reply(from + i, ran[i]).stdout
              && Errs(reply, from, ran)[i] == reply(from + i, ran[i]).stderr
  {
  }

  lemma NothingRan(reply: (nat, Job) -> Reply, from: nat)
    ensures Outs(reply, from, []) == [] && Errs(reply, from, []) == []
  {
  }

  /**
   The states of a resource that does not exist yet; files and settings may differ in every cycle,
   and any cycle may fail, at any point of its plan or apply.
   */
  ghost predicate Trace(h: Hash, states: seq<Values>, cycles: seq<Cycle>) {
    && |states| == |cycles| + 1 && states[0] == NO_STATE
    && forall i :: 0 <= i < |cycles| ==>
         (cycles[i].done ==> CanStart(states[i], cycles[i])) && states[i + 1] == After(h, states[i], cycles[i])
  }

  function FirstDone(cycles: seq<Cycle>, n: nat): (i: Option<nat>)
    requires n <= |cycles|
    ensures i.Some? ==> i.value < n && cycles[i.value].done && forall j :: 0 <= j < i.value ==> !cycles[j].done
    ensures i.None? ==> forall j :: 0 <= j < n ==> !cycles[j].done
  {
    if n == 0 then None
    else if FirstDone(cycles, n - 1).Some? then FirstDone(cycles, n - 1)
    else if cycles[n - 1].done then Some(n - 1)
    else None
  }

  function LastDone(cycles: seq<Cycle>, n: nat): (i: Option<nat>)
    requires n <= |cycles|
    ensures i.Some? ==> i.value < n && cycles[i.value].done && forall j :: i.value < j < n ==> !cycles[j].done
    ensures i.None? ==> forall j :: 0 <= j < n ==> !cycles[j].done
  {
    if n == 0 then None else if cycles[n - 1].done then Some(n - 1) else LastDone(cycles, n - 1)
  }

  /** The last of the first n cycles that ended without error and ran its commands. */
  ghost function LastRan(h: Hash, states: seq<Values>, cycles: seq<Cycle>, n: nat): (i: Option<nat>)
    requires Trace(h, states, cycles) && n <= |cycles|
    ensures i.Some? ==> i.value < n && cycles[i.value].done && RunsCommands(h, states[i.value], cycles[i.value])
    ensures forall j :: (if i.Some? then i.value + 1 else 0) <= j < n && cycles[j].done ==>
              !RunsCommands(h, states[j], cycles[j])
  {
    if n == 0 then None
    else if cycles[n - 1].done && RunsCommands(h, states[n - 1], cycles[n - 1]) then Some(n - 1)
    else LastRan(h, states, cycles, n - 1)
  }

  /**
   At every point of every run: stdout and stderr are the joined outputs of the last cycle without
   error that ran its commands, and there has been one as soon as there is a resource.
   */
  lemma {:induction false} RunOutputs(h: Hash, states: seq<Values>, cycles: seq<Cycle>, n: nat)
    requires Trace(h, states, cycles) && n <= |cycles|
    ensures LastRan(h, states, cycles, n).Some? <==> LastDone(cycles, n).Some?
    ensures LastRan(h, states, cycles, n).Some? ==>
              var c := cycles[LastRan(h, states, cycles, n).value];
              states[n].stdout == Known(Joined(c.outs)) && states[n].stderr == Known(Joined(c.errs))
  {
    hide Joined, Next, CanStart, RunsCommands, PlanOf, Settled;
    if n > 0 {
      RunOutputs(h, states, cycles, n - 1);
      RunKeeps(h, states, cycles, n - 1);
      if cycles[n - 1].done { CycleOutputs(h, states[n - 1], cycles[n - 1]); }
    }
  }

  /**
   At every point of every run: nothing exists before the first cycle without error; from then on
   the state is that of the last such cycle, settled, with the ID that the first one assigned.
   */
  lemma {:induction false} RunKeeps(h: Hash, states: seq<Values>, cycles: seq<Cycle>, n: nat)
    requires Trace(h, states, cycles) && n <= |cycles|
    ensures LastDone(cycles, n).None? ==> states[n] == NO_STATE
    ensures LastDone(cycles, n).Some? ==>
              var i := LastDone(cycles, n).value;
              && Settled(h, cycles[i].fs, states[n]) && Complete(states[n]) && states[n].settings == cycles[i].settings
              && FirstDone(cycles, n).Some? && states[n].id == Known(cycles[FirstDone(cycles, n).value].newID)
  {
    hide Resolves, HasUnknown, Digest, Readable, ConfigOf, Joined, Next, CanStart;
    if n > 0 {
      RunKeeps(h, states, cycles, n - 1);
      if cycles[n - 1].done { CycleSettles(h, states[n - 1], cycles[n - 1]); }
    }
  }

  /**
   Failed cycles are made up for: after any number of them, a cycle with the same settings and files
   runs the commands exactly when the first of them would have, whether they failed before, in or
   after running theirs.
   */
  lemma FailureIsRetried(h: Hash, states: seq<Values>, cycles: seq<Cycle>, i: nat, j: nat)
    requires Trace(h, states, cycles) && i < j < |cycles| && forall k :: i <= k < j ==> !cycles[k].done
    requires CanStart(states[i], cycles[i]) && CanStart(states[j], cycles[j])
    requires cycles[i].fs == cycles[j].fs && cycles[i].settings == cycles[j].settings
    requires cycles[i].proposed.settings == cycles[j].proposed.settings
    ensures states[j] == states[i]
    ensures RunsCommands(h, states[j], cycles[j]) <==> RunsCommands(h, states[i], cycles[i])
  {
    hide Resolves, HasUnknown, Digest, Readable, ConfigOf, Joined, Next, CanStart;
    NothingKept(h, states, cycles, i, j);
    RunKeeps(h, states, cycles, i);
    if states[i] != NO_STATE {
      RunsIff(h, states[i], cycles[i]);
      RunsIff(h, states[j], cycles[j]);
    }
  }

  lemma {:induction false} NothingKept(h: Hash, states: seq<Values>, cycles: seq<Cycle>, i: nat, j: nat)
    requires Trace(h, states, cycles) && i <= j <= |cycles| && forall k :: i <= k < j ==> !cycles[k].done
    ensures states[j] == states[i]
  {
    hide CanStart, Next;
    if i < j {
      NothingKept(h, states, cycles, i, j - 1);
      assert states[j] == After(h, states[j - 1], cycles[j - 1]);
    }
  }
}

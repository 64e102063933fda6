/**
 The plan/apply machine of enos_remote_exec (internal/plugin/resource_remote_exec.go). The remote
 host is an oracle that answers each job; scripts are fixed files during one plan/apply cycle.
 */
module RemoteExec {
  import opened Wrappers
  import opened Contexts
  import opened ExecDigest
  import opened OutputBuffer

  // ---------------------------------------------------------------------------------------------
  // States

  /** An attribute as Terraform sees it. */
  datatype Attr<+T> = Unknown | Null | Known(value: T)

  /** The attributes a practitioner sets. */
  datatype Settings = Settings(
    env: Attr<map<string, Attr<string>>>,
    content: Attr<string>,
    inline: Attr<seq<Attr<string>>>,
    scripts: Attr<seq<Attr<string>>>)

  /** A resource state on the wire: the settings and the computed attributes. */
  datatype Values = Values(
    id: Attr<string>, sum: Attr<string>, stdout: Attr<string>, stderr: Attr<string>, settings: Settings)

  predicate ListUnknown(l: Attr<seq<Attr<string>>>) {
    l.Unknown? || (l.Known? && exists i :: 0 <= i < |l.value| && !l.value[i].Known?)
  }

  predicate MapUnknown(m: Attr<map<string, Attr<string>>>) {
    m.Unknown? || (m.Known? && exists k :: k in m.value && !m.value[k].Known?)
  }

  /** hasUnknownAttributes; a null element inside a list or map counts as unknown. */
  predicate HasUnknown(s: Settings) {
    s.content.Unknown? || ListUnknown(s.scripts) || ListUnknown(s.inline) || MapUnknown(s.env)
  }

  /** GetStrings on a list. */
  function Strings(l: Attr<seq<Attr<string>>>): Option<seq<string>> {
    if l.Known? && !ListUnknown(l) then
      Some(seq(|l.value|, i requires 0 <= i < |l.value| => l.value[i].value))
    else None
  }

  /** GetStrings on a map. */
  function StringMap(m: Attr<map<string, Attr<string>>>): Option<map<string, string>> {
    if m.Known? && !MapUnknown(m) then Some(map k | k in m.value :: m.value[k].value) else None
  }

  function ConfigOf(s: Settings): ExecConfig {
    ExecConfig(StringMap(s.env), if s.content.Known? then Some(s.content.value) else None,
               Strings(s.inline), Strings(s.scripts))
  }

  // ---------------------------------------------------------------------------------------------
  // Running the commands

  /** One copyAndRun: the body is copied to `dest` and executed there. */
  datatype Job = Job(dest: string, body: string, env: map<string, string>)

  datatype Reply = Reply(stdout: string, stderr: string, failed: bool)

  class Host {
    const reply: (nat, Job) -> Reply  // what the remote side answers to its n-th job
    var log: seq<Job>

    constructor (reply: (nat, Job) -> Reply)
      ensures this.reply == reply && log == []
    {
      this.reply, log := reply, [];
    }

    method Run(job: Job) returns (r: Reply)
      modifies this
      ensures log == old(log) + [job] && r == reply(|old(log)|, job)
    {
      r := reply(|log|, job);
      log := log + [job];
    }
  }

  function Dest(h: Hash, id: string, body: string): string {
    "/tmp/" + id + "-" + h(body) + ".sh"
  }

  /**
   Everything there is to run, in order: non-empty inline commands, scripts, content. A script that
   cannot be opened has no body.
   */
  function AllBodies(c: ExecConfig, fs: Files): seq<Option<string>> {
    Given(NonEmpty(c.inline.GetOr([]))) + Opened(c.scripts.GetOr([]), fs)
    + (if c.content.Some? then [c.content] else [])
  }

  function Given(bodies: seq<string>): seq<Option<string>> {
    seq(|bodies|, i requires 0 <= i < |bodies| => Some(bodies[i]))
  }

  function Opened(paths: seq<string>, fs: Files): seq<Option<string>> {
    seq(|paths|, i requires 0 <= i < |paths| => if paths[i] in fs then Some(fs[paths[i]]) else None)
  }

  lemma OpenedAt(paths: seq<string>, fs: Files)
    ensures |Opened(paths, fs)| == |paths|
    ensures forall i :: 0 <= i < |paths| ==> Opened(paths, fs)[i] == if paths[i] in fs then Some(fs[paths[i]]) else None
  {
  }

  /** Every script opens exactly when everything has a body. */
  lemma ReadableIff(c: ExecConfig, fs: Files)
    ensures Readable(c, fs) <==> forall i :: 0 <= i < |AllBodies(c, fs)| ==> AllBodies(c, fs)[i].Some?
  {
    var p, q := Given(NonEmpty(c.inline.GetOr([]))), Opened(c.scripts.GetOr([]), fs);
    forall i | 0 <= i < |q| ensures AllBodies(c, fs)[|p| + i] == q[i] {}
    if !Readable(c, fs) {
      var i :| 0 <= i < |c.scripts.value| && c.scripts.value[i] !in fs;
      assert q[i].None?;
    }
  }

  /**
   The environment a job gets: all of it, or an arbitrary part if some value in it is not known
   (GetStrings then returns what it had collected, and copyAndRun drops the ok flag).
   */
  ghost predicate EnvGiven(env: Attr<map<string, Attr<string>>>, given: map<string, string>) {
    && (StringMap(env).Some? ==> given == StringMap(env).value)
    && (forall k :: k in given ==> env.Known? && k in env.value && env.value[k] == Known(given[k]))
  }

  function Outs(reply: (nat, Job) -> Reply, from: nat, ran: seq<Job>): seq<string> {
    seq(|ran|, i requires 0 <= i < |ran| => reply(from + i, ran[i]).stdout)
  }

  function Errs(reply: (nat, Job) -> Reply, from: nat, ran: seq<Job>): seq<string> {
    seq(|ran|, i requires 0 <= i < |ran| => reply(from + i, ran[i]).stderr)
  }

  /** What the commands of one resource are run with. */
  datatype Order = Order(h: Hash, id: string, env: Attr<map<string, Attr<string>>>, bodies: seq<Option<string>>)

  ghost predicate JobFor(o: Order, i: nat, job: Job)
    requires i < |o.bodies|
  {
    && o.bodies[i] == Some(job.body) && job.dest == Dest(o.h, o.id, job.body) && EnvGiven(o.env, job.env)
  }

  /** `ran` are the first jobs of the order, and all of them but possibly the last one succeeded. */
  ghost predicate Begun(reply: (nat, Job) -> Reply, from: nat, o: Order, ran: seq<Job>) {
    && |ran| <= |o.bodies|
    && (forall i :: 0 <= i < |ran| ==> JobFor(o, i, ran[i]))
    && (forall i :: 0 <= i < |ran| - 1 ==> !reply(from + i, ran[i]).failed)
  }

  ghost predicate LastFailed(reply: (nat, Job) -> Reply, from: nat, ran: seq<Job>) {
    ran != [] && reply(from + |ran| - 1, ran[|ran| - 1]).failed
  }

  predicate NoBody(o: Order, i: nat) {
    i < |o.bodies| && o.bodies[i].None?
  }

  lemma RanOne(reply: (nat, Job) -> Reply, from: nat, o: Order, ran: seq<Job>, job: Job)
    requires Begun(reply, from, o, ran) && !LastFailed(reply, from, ran)
    requires |ran| < |o.bodies| && JobFor(o, |ran|, job)
    ensures Begun(reply, from, o, ran + [job])
    ensures LastFailed(reply, from, ran + [job]) <==> reply(from + |ran|, job).failed
    ensures Outs(reply, from, ran + [job]) == Outs(reply, from, ran) + [reply(from + |ran|, job).stdout]
    ensures Errs(reply, from, ran + [job]) == Errs(reply, from, ran) + [reply(from + |ran|, job).stderr]
  {
    hide JobFor;
  }

  class Runner {
    const h: Hash
    const host: Host
    const ctx: Context

    constructor (h: Hash, host: Host, ctx: Context)
      ensures this.h == h && this.host == host && this.ctx == ctx
    {
      this.h, this.host, this.ctx := h, host, ctx;
    }

    /** The jobs run so far are in the host's log and their outputs in the buffers. */
    ghost predicate Recorded(ui: Buffered, from: seq<Job>, ran: seq<Job>)
      reads host, ui
    {
      && ui.Valid() && host.log == from + ran
      && ui.outs == Outs(host.reply, |from|, ran) && ui.errs == Errs(host.reply, |from|, ran)
    }

    /**
     Where a run of commands stands: without an error every job so far has succeeded; an error is
     the failure of the last job or a next one without a body, unless the context was found done.
     */
    ghost predicate Stands(ui: Buffered, from: seq<Job>, o: Order, ran: seq<Job>, err: Option<string>)
      reads host, ctx, ui
    {
      && Recorded(ui, from, ran) && Begun(host.reply, |from|, o, ran)
      && (err.None? ==> !LastFailed(host.reply, |from|, ran))
      && (err.Some? ==> LastFailed(host.reply, |from|, ran) || NoBody(o, |ran|) || ctx.left == 0)
    }

    method CopyAndRun(ui: Buffered, env: Attr<map<string, Attr<string>>>, id: string, body: string,
                      ghost from: seq<Job>, ghost o: Order, ghost ran: seq<Job>)
      returns (err: Option<string>, ghost ran': seq<Job>)
      requires Stands(ui, from, o, ran, None) && |ran| < |o.bodies|
      requires o.h == h && o.id == id && o.env == env && o.bodies[|ran|] == Some(body)
      modifies host, ctx, ui
      ensures Stands(ui, from, o, ran', err)
      ensures err.None? ==> |ran'| == |ran| + 1
    {
      hide Dest, EnvGiven, Buffered.Valid, Begun, LastFailed, Outs, Errs;
      ran' := ran;
      var over := ctx.Poll();
      if over {
        return Some("context done"), ran';
      }
      var given := SomeStrings(env);
      var job := Job(Dest(h, id, body), body, given);
      RanOne(host.reply, |from|, o, ran, job);
      var r := host.Run(job);
      ui.Append(r.stdout, r.stderr);
      ran' := ran + [job];
      err := if r.failed then Some("executing script") else None;
    }

    /** The inline loop; a line without a command is skipped. */
    method RunInline(ui: Buffered, env: Attr<map<string, Attr<string>>>, id: string, cmds: seq<string>,
                     ghost from: seq<Job>, ghost o: Order)
      returns (err: Option<string>, ghost ran: seq<Job>)
      requires Stands(ui, from, o, [], None)
      requires o.h == h && o.id == id && o.env == env && Given(NonEmpty(cmds)) <= o.bodies
      modifies host, ctx, ui
      ensures Stands(ui, from, o, ran, err)
      ensures err.None? ==> |ran| == |NonEmpty(cmds)|
    {
      hide Recorded, Begun, LastFailed, NonEmpty;
      err, ran := None, [];
      NonEmptyAt(cmds, 0);
      for i := 0 to |cmds|
        invariant err.None? && |ran| == |NonEmpty(cmds[..i])| && Stands(ui, from, o, ran, None)
      {
        NonEmptyAt(cmds, i);
        var over := ctx.Poll();
        if over {
          return Some("context done"), ran;
        }
        if cmds[i] != "" {
          err, ran := CopyAndRun(ui, env, id, cmds[i], from, o, ran);
          if err.Some? { return; }
        }
      }
      assert cmds[..|cmds|] == cmds;
    }

    method RunScripts(ui: Buffered, env: Attr<map<string, Attr<string>>>, id: string, paths: seq<string>, fs: Files,
                      ghost from: seq<Job>, ghost o: Order, ghost before: seq<Job>)
      returns (err: Option<string>, ghost ran: seq<Job>)
      requires Stands(ui, from, o, before, None)
      requires o.h == h && o.id == id && o.env == env && |before| + |paths| <= |o.bodies|
      requires forall i :: 0 <= i < |paths| ==> o.bodies[|before| + i] == Opened(paths, fs)[i]
      modifies host, ctx, ui
      ensures Stands(ui, from, o, ran, err)
      ensures err.None? ==> |ran| == |before| + |paths|
    {
      hide Recorded, Begun, LastFailed, Opened;
      OpenedAt(paths, fs);
      err, ran := None, before;
      for i := 0 to |paths|
        invariant err.None? && |ran| == |before| + i && Stands(ui, from, o, ran, None)
      {
        assert o.bodies[|before| + i] == Opened(paths, fs)[i];
        if paths[i] !in fs { return Some("failed to open script file"), ran; }
        err, ran := CopyAndRun(ui, env, id, fs[paths[i]], from, o, ran);
        if err.Some? { return; }
      }
    }

    /**
     ExecuteCommands runs the jobs in order up to and including the first failure, or up to a script
     that cannot be opened.
     */
    method ExecuteCommands(s: Settings, id: string, fs: Files, ghost from: seq<Job>)
      returns (ui: Buffered, err: Option<string>, ghost ran: seq<Job>)
      requires host.log == from
      modifies host, ctx
      ensures fresh(ui)
      ensures Stands(ui, from, Order(h, id, s.env, AllBodies(ConfigOf(s), fs)), ran, err)
      ensures err.None? ==> |ran| == |AllBodies(ConfigOf(s), fs)|
    {
      hide Recorded, LastFailed, NonEmpty, StringMap, Strings;
      ui := new Buffered();
      var c := ConfigOf(s);
      ghost var o := Order(h, id, s.env, AllBodies(c, fs));
      err, ran := None, [];
      StandsAtStart(this, ui, from, o);
      NonEmptyOfNone();
      if c.inline.Some? {
        err, ran := RunInline(ui, s.env, id, c.inline.value, from, o);
        if err.Some? { return; }
      }
      hide Begun;
      if c.scripts.Some? {
        err, ran := RunScripts(ui, s.env, id, c.scripts.value, fs, from, o, ran);
        if err.Some? { return; }
      }
      if c.content.Some? {
        err, ran := CopyAndRun(ui, s.env, id, c.content.value, from, o, ran);
      }
    }
  }

  lemma StandsAtStart(r: Runner, ui: Buffered, from: seq<Job>, o: Order)
    requires r.host.log == from && ui.Valid() && ui.outs == ui.errs == []
    ensures r.Stands(ui, from, o, [], None)
  {
  }

  lemma NonEmptyOfNone()
    ensures NonEmpty([]) == []
  {
  }

  /** GetStrings on a map, in an arbitrary order of the keys; the caller ignores the ok flag. */
  method SomeStrings(env: Attr<map<string, Attr<string>>>) returns (given: map<string, string>)
    ensures EnvGiven(env, given)
  {
    given := map[];
    if !env.Known? { return; }
    var todo := env.value.Keys;
    while todo != {}
      invariant todo <= env.value.Keys && given.Keys == env.value.Keys - todo
      invariant forall k :: k in given ==> env.value[k] == Known(given[k])
    {
      var k :| k in todo;
      if !env.value[k].Known? { return; }
      given := given[k := env.value[k].value];
      todo := todo - {k};
    }
  }

  lemma {:induction false} NonEmptyAppend(s: seq<string>, t: seq<string>)
    ensures NonEmpty(s + t) == NonEmpty(s) + NonEmpty(t)
  {
    if s == [] {
      assert s + t == t;
    } else {
      assert (s + t)[1..] == s[1..] + t;
      NonEmptyAppend(s[1..], t);
    }
  }

  /** Where the i-th command is among the non-empty ones. */
  lemma NonEmptyAt(cmds: seq<string>, i: nat)
    ensures NonEmpty(cmds[..0]) == []
    ensures i < |cmds| && cmds[i] != "" ==>
            var n := |NonEmpty(cmds[..i])|;
            n < |NonEmpty(cmds)| && NonEmpty(cmds)[n] == cmds[i] && |NonEmpty(cmds[..i + 1])| == n + 1
    ensures i < |cmds| && cmds[i] == "" ==> NonEmpty(cmds[..i + 1]) == NonEmpty(cmds[..i])
  {
    if i < |cmds| {
      assert cmds[..i + 1] == cmds[..i] + [cmds[i]] && cmds == cmds[..i + 1] + cmds[i + 1..];
      NonEmptySnoc(cmds[..i], cmds[i]);
      NonEmptyAppend(cmds[..i + 1], cmds[i + 1..]);
    }
  }
}

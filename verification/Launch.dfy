/** Launching one instance: which requests reach the server, and in which order.

    Models internal/lxc/client_instances.go and internal/lxc/client_instances_util.go. The server's answers
    are arbitrary; every request that changes something is recorded with its outcome. */
module Launch {
  import opened Common
  import opened Backends
  import opened Replacements
  import opened LaunchOptions

  datatype Operation = Operation(id: string, class_: string, description: string, instances: seq<string>)

  /** What the server answers in one call. */
  datatype Server = Server(
    present: bool, operations: Option<seq<Operation>>, fetch: string -> bool, complete: bool, create: bool,
    metadata: bool, template: string -> bool, update: bool, file: FileOp -> bool,
    read: string -> Option<string>, overwrite: string -> bool,
    status: Option<string>, start: bool, polls: seq<Option<NetworkState>>)

  /** What a create request asks for, its image not yet resolved for the server. */
  datatype Post = Post(
    config: map<string, string>, devices: map<string, map<string, string>>, profiles: seq<string>,
    image: Image, instanceType: string, flavor: string)

  datatype Request = Create(post: Post)
                   | Template(path: string, contents: string) | Metadata(paths: set<string>)
                   | File(op: FileOp) | Overwrite(path: string, contents: string) | Start

  datatype Event = Event(request: Request, ok: bool)

  // ---- finding a pending create operation ------------------------------------------------------

  const INSTANCES := "/1.0/instances/"

  predicate Creates(op: Operation, name: string) {
    op.class_ == "task" && op.description == "Creating instance" && op.instances == [INSTANCES + name]
  }

  /** tryFindInstanceCreateOperation: the first pending operation that creates exactly this instance. */
  method TryFindInstanceCreateOperation(server: Server, name: string) returns (r: Result<Option<Operation>>)
    ensures server.operations.None? ==> r == Failure
    ensures r.Success? && r.value.None? <==>
      server.operations.Some? && forall op | op in server.operations.value :: !Creates(op, name)
    ensures r.Success? && r.value.Some? ==>
      r.value.value in server.operations.value && Creates(r.value.value, name) && server.fetch(r.value.value.id)
    ensures r.Success? && r.value.Some? ==>
      var op := r.value.value;
      op.class_ == "task" && op.description == "Creating instance" && op.instances == ["/1.0/instances/" + name]
    ensures r.Success? && r.value.None? ==>
      forall op | op in server.operations.value ::
        !(op.class_ == "task" && op.description == "Creating instance" && op.instances == ["/1.0/instances/" + name])
    ensures Found(server, name) <==> r.Success? && r.value.Some?
  {
    if server.operations.None? {
      return Failure;
    }
    var ops := server.operations.value;
    var instancePath := INSTANCES + name;
    for i := 0 to |ops|
      invariant forall j | 0 <= j < i :: !Creates(ops[j], name)
    {
      var op := ops[i];
      if op.class_ != "task" || op.description != "Creating instance" {
        continue;
      }
      if |op.instances| != 1 || op.instances[0] != instancePath {
        continue;
      }
      assert op.instances == [instancePath];
      assert op in ops && Creates(op, name);
      FirstIs(ops, name, i);
      if !server.fetch(op.id) {
        return Failure;
      }
      return Success(Some(op));
    }
    NoFirst(ops, name);
    return Success(None);
  }

  function First(ops: seq<Operation>, name: string): Option<Operation> {
    if ops == [] then None else if Creates(ops[0], name) then Some(ops[0]) else First(ops[1..], name)
  }

  /** A pending create for this instance is visible: it is listed, and the first one can be fetched. */
  predicate Found(server: Server, name: string) {
    && server.operations.Some? && First(server.operations.value, name).Some?
    && server.fetch(First(server.operations.value, name).value.id)
  }

  lemma {:induction false} FirstIs(ops: seq<Operation>, name: string, i: nat)
    requires i < |ops| && Creates(ops[i], name) && forall j | 0 <= j < i :: !Creates(ops[j], name)
    ensures First(ops, name) == Some(ops[i])
  {
    if i > 0 {
      FirstIs(ops[1..], name, i - 1);
    }
  }

  lemma {:induction false} NoFirst(ops: seq<Operation>, name: string)
    requires forall op | op in ops :: !Creates(op, name)
    ensures First(ops, name) == None
  {
    if ops != [] {
      NoFirst(ops[1..], name);
    }
  }

  /** Names are matched exactly: no operation creates two instances. */
  lemma CreatesOne(op: Operation, a: string, b: string)
    requires Creates(op, a) && Creates(op, b)
    ensures a == b
  {
    assert op.instances[0] == INSTANCES + a == INSTANCES + b;
    assert (INSTANCES + a)[|INSTANCES|..] == a && (INSTANCES + b)[|INSTANCES|..] == b;
  }

  // ---- waiting for an address ------------------------------------------------------------------

  /** The first poll that has an address is `i`, every one before it having succeeded without; these are its
      usable addresses in ascending order. */
  ghost predicate Answers(polls: seq<Option<NetworkState>>, i: nat, addresses: seq<string>) {
    && i < |polls| && (forall j | 0 <= j <= i :: polls[j].Some?)
    && (forall j | 0 <= j < i :: IsHostList(polls[j].value, []))
    && addresses != [] && IsHostList(polls[i].value, addresses) && ListsHosts(polls[i].value, addresses)
  }

  ghost predicate Answered(polls: seq<Option<NetworkState>>, addresses: seq<string>) {
    exists i: nat :: Answers(polls, i, addresses)
  }

  /** waitForInstanceAddress: polls until the instance has an address; a failed poll or the timeout, which
      ends the list of polls, is an error. */
  method WaitForInstanceAddress(polls: seq<Option<NetworkState>>) returns (r: Result<seq<string>>)
    ensures r.Success? ==> Answered(polls, r.value)
    ensures (exists addresses :: Answered(polls, addresses)) ==> r.Success?
  {
    for i := 0 to |polls|
      invariant forall j | 0 <= j < i :: polls[j].Some? && IsHostList(polls[j].value, [])
    {
      if polls[i].None? {
        NeverAnswered(polls, i);
        return Failure;
      }
      var addresses := ParseHostAddresses(polls[i]);
      if |addresses| > 0 {
        assert Answers(polls, i, addresses);
        return Success(addresses);
      }
    }
    NeverAnswered(polls, |polls|);
    return Failure;
  }

  lemma NeverAnswered(polls: seq<Option<NetworkState>>, n: nat)
    requires n <= |polls| && (n < |polls| ==> polls[n].None?)
    requires forall j | 0 <= j < n :: polls[j].Some? && IsHostList(polls[j].value, [])
    ensures forall addresses :: !Answered(polls, addresses)
  {
    forall addresses, i: nat ensures !Answers(polls, i, addresses) {
      if Answers(polls, i, addresses) {
        HostListIsUnique(polls[i].value, addresses, []);
      }
    }
  }

  // ---- what has been done ----------------------------------------------------------------------

  /** Every template was created, and then the metadata that refers to all of them was updated. */
  predicate Templated(done: seq<Event>, templates: map<string, string>) {
    if templates == map[] then done == []
    else
      && |done| == |templates| + 1 && done[|templates|] == Event(Metadata(templates.Keys), true)
      && forall path | path in templates :: Event(Template(path, templates[path]), true) in done[..|templates|]
  }

  function Filed(files: seq<FileOp>): seq<Event> {
    seq(|files|, i requires 0 <= i < |files| => Event(File(files[i]), true))
  }

  /** The file was read, and it was overwritten unless no replacement changes it. */
  ghost predicate Replaced(server: Server, done: seq<Event>, path: string, replacer: Replacer) {
    server.read(path).Some? && exists order :: RewrittenIn(server.read(path).value, done, path, replacer, order)
  }

  ghost predicate RewrittenIn(
    contents: string, done: seq<Event>, path: string, replacer: Replacer, order: seq<string>) {
    && IsOrder(order, replacer)
    && var text := InOrder(contents, order, replacer);
       text == contents || Event(Overwrite(path, text), true) in done
  }

  /** With marked replacements, as those of kind are, the text does not depend on the iteration order. */
  lemma ReplacedMeans(server: Server, done: seq<Event>, path: string, replacer: Replacer)
    requires Replaced(server, done, path, replacer) && Marked(replacer) && Apart(replacer)
    ensures var text := Simultaneous(replacer, server.read(path).value);
      text == server.read(path).value || Event(Overwrite(path, text), true) in done
  {
    var contents := server.read(path).value;
    var order :| RewrittenIn(contents, done, path, replacer, order);
    AnyOrder(contents, order, replacer);
  }

  /** The instance is running or starts, and gets an address. */
  ghost predicate CanStart(server: Server) {
    && server.status.Some? && (server.status.value == "Running" || server.start)
    && exists addresses :: Answered(server.polls, addresses)
  }

  /** Every step of a launch succeeds. */
  ghost predicate CanLaunch(
    server: Server, name: string, templates: map<string, string>, files: seq<FileOp>,
    replacements: map<string, Replacer>)
  {
    && CanStart(server)
    && (server.present ||
        (&& server.create && (Found(server, name) || server.complete)
         && (templates == map[] ||
             (server.metadata && server.update && forall path | path in templates :: server.template(path)))
         && (forall f | f in files :: server.file(f))
         && (forall path | path in replacements :: server.read(path).Some? && server.overwrite(path))))
  }

  /** Nothing that the server is asked for fails. */
  ghost predicate Willing(server: Server) {
    && CanStart(server) && server.complete && server.create && server.metadata && server.update
    && (forall path :: server.template(path)) && (forall op :: server.file(op))
    && forall path :: server.read(path).Some? && server.overwrite(path)
  }

  class Launcher {
    const server: Server
    const name: string
    var log: seq<Event>

    constructor (server: Server, name: string)
      ensures this.server == server && this.name == name && log == []
    {
      this.server, this.name, log := server, name, [];
    }

    method CreateTemplates(templates: map<string, string>) returns (ok: bool, ghost done: seq<Event>)
      modifies this
      ensures log == old(log) + done && (ok ==> Templated(done, templates))
      ensures ok <==>
        || templates == map[]
        || (server.metadata && server.update && forall path | path in templates :: server.template(path))
      ensures forall e | e in done :: e.request.Template? || e.request.Metadata?
    {
      done := [];
      if |templates| == 0 {
        return true, done;
      }
      if !server.metadata {
        return false, done;
      }
      var left := templates;
      while left != map[]
        invariant left.Keys <= templates.Keys && forall path | path in left :: left[path] == templates[path]
        invariant |done| + |left| == |templates| && log == old(log) + done
        invariant forall path | path in templates && path !in left ::
          Event(Template(path, templates[path]), true) in done
        invariant forall e | e in done :: e.request.Template?
        invariant forall path | path in templates && path !in left :: server.template(path)
        decreases |left|
      {
        var path :| path in left;
        var event := Event(Template(path, templates[path]), server.template(path));
        log, done := log + [event], done + [event];
        if !server.template(path) {
          return false, done;
        }
        left := left - {path};
      }
      var event := Event(Metadata(templates.Keys), server.update);
      assert (done + [event])[..|templates|] == done;
      log, done := log + [event], done + [event];
      ok := server.update;
    }

    method CreateFiles(files: seq<FileOp>) returns (ok: bool, ghost done: seq<Event>)
      modifies this
      ensures log == old(log) + done && (ok ==> done == Filed(files))
      ensures ok <==> forall f | f in files :: server.file(f)
      ensures forall e | e in done :: e.request.File?
    {
      done := [];
      for i := 0 to |files|
        invariant log == old(log) + done && done == Filed(files)[..i]
        invariant forall j | 0 <= j < i :: server.file(files[j])
      {
        var event := Event(File(files[i]), server.file(files[i]));
        log, done := log + [event], done + [event];
        if !server.file(files[i]) {
          return false, done;
        }
      }
      ok := true;
    }

    method ReplaceText(replacements: map<string, Replacer>) returns (ok: bool, ghost done: seq<Event>)
      modifies this
      ensures log == old(log) + done
      ensures ok ==> forall path | path in replacements :: Replaced(server, done, path, replacements[path])
      ensures (forall path | path in replacements :: server.read(path).Some? && server.overwrite(path)) ==> ok
      ensures forall e | e in done :: e.request.Overwrite?
    {
      done := [];
      var left := replacements.Keys;
      while left != {}
        invariant left <= replacements.Keys && log == old(log) + done
        invariant forall path | path in replacements && path !in left ::
          Replaced(server, done, path, replacements[path])
        invariant forall e | e in done :: e.request.Overwrite?
      {
        var path :| path in left;
        left := left - {path};
        if server.read(path).None? {
          return false, done;
        }
        var contents := server.read(path).value;
        var text, write, order := ReplaceInFile(contents, replacements[path]);
        ghost var before := done;
        if write {
          var event := Event(Overwrite(path, text), server.overwrite(path));
          log, done := log + [event], done + [event];
          if !server.overwrite(path) {
            return false, done;
          }
        }
        assert RewrittenIn(contents, done, path, replacements[path], order);
        ReplacedGrows(server, before, done, replacements);
      }
      ok := true;
    }

    /** WaitForStartInstance. */
    method WaitForStartInstance() returns (r: Result<seq<string>>, ghost done: seq<Event>)
      modifies this
      ensures log == old(log) + done
      ensures done
        == if server.status.Some? && server.status.value != "Running" then [Event(Start, server.start)] else []
      ensures r.Success? ==> Answered(server.polls, r.value)
      ensures r.Success? <==> CanStart(server)
    {
      done := [];
      if server.status.None? {
        return Failure, done;
      }
      if server.status.value != "Running" {
        log, done := log + [Event(Start, server.start)], [Event(Start, server.start)];
        if !server.start {
          return Failure, done;
        }
      }
      r := WaitForInstanceAddress(server.polls);
    }

    /** The first step of a launch: wait for a pending create or send one. */
    method EnsureCreated(post: Post) returns (ok: bool, ghost head: seq<Event>)
      modifies this
      ensures log == old(log) + head
      ensures head == if !Found(server, name) && server.complete then [Event(Create(post), server.create)] else []
      ensures ok <==> server.create && (Found(server, name) || server.complete)
    {
      head := [];
      var pending := TryFindInstanceCreateOperation(server, name);
      if !(pending.Success? && pending.value.Some?) {
        if !server.complete {
          return false, head;
        }
        log, head := log + [Event(Create(post), server.create)], [Event(Create(post), server.create)];
      }
      ok := server.create;
    }

    /** The second: templates, then files, then replacements. */
    method Provision(templates: map<string, string>, files: seq<FileOp>, replacements: map<string, Replacer>)
      returns (ok: bool, ghost t: seq<Event>, ghost f: seq<Event>, ghost p: seq<Event>)
      modifies this
      ensures log == old(log) + (t + f + p)
      ensures forall e | e in t + f + p :: !e.request.Create? && !e.request.Start?
      ensures ok ==> Templated(t, templates) && f == Filed(files)
      ensures
        && (templates == map[] ||
            (server.metadata && server.update && forall path | path in templates :: server.template(path)))
        && (forall x | x in files :: server.file(x))
        && (forall path | path in replacements :: server.read(path).Some? && server.overwrite(path))
        ==> ok
      ensures ok ==> forall path | path in replacements :: Replaced(server, p, path, replacements[path])
    {
      t, f, p := [], [], [];
      ok, t := CreateTemplates(templates);
      if ok {
        ok, f := CreateFiles(files);
        if ok {
          ok, p := ReplaceText(replacements);
        }
      }
    }

    /** WaitForLaunchInstance. A create request is sent exactly when neither the instance nor a pending
        create for exactly its name was visible and the options are complete, and it is sent once and
        first. Unless the instance was there already, a start request is sent only after every template,
        the metadata, every file and every replacement succeeded. */
    method WaitForLaunchInstance(
      post: Post, templates: map<string, string>, files: seq<FileOp>, replacements: map<string, Replacer>)
      returns (
        r: Result<seq<string>>, ghost head: seq<Event>, ghost t: seq<Event>, ghost f: seq<Event>, ghost p: seq<Event>,
        ghost last: seq<Event>)
      modifies this
      ensures log == old(log) + (head + (t + f + p) + last)
      ensures head
        == if !server.present && !Found(server, name) && server.complete
           then [Event(Create(post), server.create)] else []
      ensures forall e | e in t + f + p :: !e.request.Create? && !e.request.Start?
      ensures last == [] || last == [Event(Start, server.start)]
      ensures server.present ==> t + f + p == []
      ensures (last != [] || r.Success?) && !server.present ==>
        && (head == [] || head == [Event(Create(post), true)])
        && Templated(t, templates) && f == Filed(files)
        && forall path | path in replacements :: Replaced(server, p, path, replacements[path])
      ensures r.Success? ==> Answered(server.polls, r.value) && (head == [] || head == [Event(Create(post), true)])
      ensures CanLaunch(server, name, templates, files, replacements) ==> r.Success?
    {
      head, t, f, p, last := [], [], [], [], [];
      if server.present {
        r, last := WaitForStartInstance();
        return;
      }
      var ok;
      ok, head := EnsureCreated(post);
      if !ok {
        return Failure, head, t, f, p, last;
      }
      ok, t, f, p := Provision(templates, files, replacements);
      Assoc(old(log), head, t + f + p);
      if !ok {
        assert head + (t + f + p) + [] == head + (t + f + p);
        return Failure, head, t, f, p, last;
      }
      r, last := WaitForStartInstance();
      Assoc(old(log), head + (t + f + p), last);
    }
  }

  lemma ReplacedGrows(server: Server, before: seq<Event>, after: seq<Event>, replacements: map<string, Replacer>)
    requires before <= after
    ensures forall path | path in replacements && Replaced(server, before, path, replacements[path]) ::
      Replaced(server, after, path, replacements[path])
  {
    forall path | path in replacements && Replaced(server, before, path, replacements[path])
      ensures Replaced(server, after, path, replacements[path])
    {
      var contents := server.read(path).value;
      var order :| RewrittenIn(contents, before, path, replacements[path], order);
      assert RewrittenIn(contents, after, path, replacements[path], order);
    }
  }
}

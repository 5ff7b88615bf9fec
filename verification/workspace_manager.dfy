/**
 * The open problems of one workspace. Two parallel lists pair problem `i`
 * with the watch key of its directory; the watch key stands for the
 * registration of that directory with the file-system watcher.
 */
module Workspace {
  import opened Wrappers
  import opened Strings
  import opened Configuration
  import opened Problems
  import opened Synchronization
  import opened Sequences

  /** The results of the folder dialog, as `JOptionPane` numbers them. */
  const YES_OPTION := 0
  const NO_OPTION := 1
  const CLOSED_OPTION := -1

  /** The kinds of watch events; OVERFLOW says events were lost. */
  datatype EventKind = EntryCreate | EntryDelete | EntryModify | Overflow

  /** One watch event: its kind and the name of the file it is about. */
  datatype WatchEvent = WatchEvent(kind: EventKind, context: string)

  /** The registration of one directory with the watcher: the events
      waiting to be polled, and whether it has been cancelled. */
  class WatchKey {
    var pending: seq<WatchEvent>
    var cancelled: bool

    constructor ()
      ensures pending == [] && !cancelled
    {
      pending := [];
      cancelled := false;
    }

    /** `pollEvents`: hands over the waiting events and forgets them. */
    method PollEvents() returns (events: seq<WatchEvent>)
      modifies this`pending
      ensures events == old(pending) && pending == []
    {
      events := pending;
      pending := [];
    }

    method Cancel()
      modifies this`cancelled
      ensures cancelled
    {
      cancelled := true;
    }
  }

  /** What `IOException.getMessage` gives for each disk error: the path for
      the file exceptions, the text otherwise. */
  function MessageOf(e: IoError): string
  {
    match e
    case NoSuchFile(path) => path
    case FileAlreadyExists(path) => path
    case AccessDenied(path) => path
    case Failure(message) => message
  }

  function DuplicateMessage(directory: string): string
  {
    "Problem with such directory already exists: " + directory
  }

  function DeletionMessage(directory: string, e: IoError): string
  {
    "Deleting folder " + directory + " caused an error:\n" + MessageOf(e)
  }

  /** The index the dispatch scan stops at: the first position holding
      `key`, or the length of the list when no position does. */
  function KeyIndex(keys: seq<WatchKey>, key: WatchKey): (index: nat)
    ensures index <= |keys|
    ensures index < |keys| ==> keys[index] == key
    ensures forall j :: 0 <= j < index ==> keys[j] != key
    ensures index == |keys| <==> key !in keys
  {
    if keys == [] then 0
    else if keys[0] == key then 0
    else 1 + KeyIndex(keys[1..], key)
  }

  /** The events of a batch that reach the problem: all but OVERFLOW, in
      batch order. */
  function Delivered(events: seq<WatchEvent>): (r: seq<WatchEvent>)
    ensures |r| <= |events|
    ensures forall e :: e in r <==> e in events && !e.kind.Overflow?
  {
    if events == [] then []
    else if events[0].kind.Overflow? then Delivered(events[1..])
    else [events[0]] + Delivered(events[1..])
  }

  /** A batch without OVERFLOW events is delivered whole. */
  lemma {:induction false} DeliveredWithoutOverflow(events: seq<WatchEvent>)
    requires forall j :: 0 <= j < |events| ==> !events[j].kind.Overflow?
    ensures Delivered(events) == events
  {
    if events != [] {
      DeliveredWithoutOverflow(events[1..]);
    }
  }

  /** Delivering two batches one after the other delivers their
      concatenation. */
  lemma {:induction false} DeliveredConcat(a: seq<WatchEvent>, b: seq<WatchEvent>)
    ensures Delivered(a + b) == Delivered(a) + Delivered(b)
  {
    if a == [] {
      assert a + b == b;
    } else {
      assert (a + b)[1..] == a[1..] + b;
      DeliveredConcat(a[1..], b);
    }
  }

  /** The message `closeProblem` reports for `sync`: with `delete`, the
      error of the walk over its directory, which `walkOf` lists, naming
      the directory; nothing otherwise. */
  function CloseError(sync: ProblemSync, delete: bool, walkOf: string -> seq<string>, locked: set<string>)
    : Option<string>
    reads sync
  {
    var outcome := WalkDelete(sync.files, walkOf(sync.directory), locked).1;
    if delete && outcome.Fail? then Some(DeletionMessage(sync.directory, outcome.error)) else None
  }

  /** The error messages `closeProblem` reports while closing `syncs` one
      by one: one per problem whose directory could not be deleted, and
      none when nothing is deleted. */
  function CloseErrors(syncs: seq<ProblemSync>, delete: bool, walkOf: string -> seq<string>, locked: set<string>)
    : (errors: seq<string>)
    reads syncs
    ensures |errors| <= |syncs|
    ensures !delete ==> errors == []
  {
    if syncs == [] then []
    else
      var error := CloseError(syncs[0], delete, walkOf, locked);
      (if error.Some? then [error.value] else []) + CloseErrors(syncs[1..], delete, walkOf, locked)
  }

  /** When every walk lists its directory's files once, closing with delete
      reports nothing exactly when no walk meets a file that cannot be
      deleted. */
  lemma {:induction false} CloseErrorsOfFullWalks(syncs: seq<ProblemSync>, walkOf: string -> seq<string>,
                                                  locked: set<string>)
    requires forall k :: 0 <= k < |syncs| ==> FullWalk(syncs[k].files, walkOf(syncs[k].directory))
    ensures CloseErrors(syncs, true, walkOf, locked) == [] <==>
            forall k, i :: 0 <= k < |syncs| && 0 <= i < |walkOf(syncs[k].directory)| ==>
              walkOf(syncs[k].directory)[i] !in locked
  {
    if syncs != [] {
      var walk := walkOf(syncs[0].directory);
      WalkOverAllFiles(syncs[0].files, walk, locked);
      CloseErrorsOfFullWalks(syncs[1..], walkOf, locked);
      if forall k, i :: 0 <= k < |syncs| && 0 <= i < |walkOf(syncs[k].directory)| ==>
           walkOf(syncs[k].directory)[i] !in locked {
        forall k, i | 0 <= k < |syncs[1..]| && 0 <= i < |walkOf(syncs[1..][k].directory)|
          ensures walkOf(syncs[1..][k].directory)[i] !in locked
        {
          assert syncs[1..][k] == syncs[k + 1];
        }
      } else if CloseErrors(syncs, true, walkOf, locked) == [] {
        var k, i :| 0 <= k < |syncs| && 0 <= i < |walkOf(syncs[k].directory)| &&
                    walkOf(syncs[k].directory)[i] in locked;
        if k > 0 {
          assert syncs[1..][k - 1] == syncs[k];
        }
      }
    }
  }

  /** Closing the first of `syncs` reports its message: appended to the
      messages so far, the messages of the rest still complete `total`. */
  /** Problems in different directories are different problems. */
  lemma DistinctDirectories(syncs: seq<ProblemSync>)
    requires forall i, j :: 0 <= i < j < |syncs| ==> syncs[i].directory != syncs[j].directory
    ensures forall i, j :: 0 <= i < j < |syncs| ==> syncs[i] != syncs[j]
  {
  }

  lemma ErrorsAfterFront(errors: seq<string>, syncs: seq<ProblemSync>, delete: bool,
                         walkOf: string -> seq<string>, locked: set<string>, total: seq<string>)
    requires syncs != [] && errors + CloseErrors(syncs, delete, walkOf, locked) == total
    ensures var error := CloseError(syncs[0], delete, walkOf, locked);
            (if error.Some? then errors + [error.value] else errors) + CloseErrors(syncs[1..], delete, walkOf, locked)
            == total
  {
    var error := CloseError(syncs[0], delete, walkOf, locked);
    var rest := CloseErrors(syncs[1..], delete, walkOf, locked);
    if error.Some? {
      AppendAssoc(errors, [error.value], rest);
    } else {
      assert CloseErrors(syncs, delete, walkOf, locked) == rest;
    }
  }

  class WorkspaceManager {
    var workspaceDirectory: string
    /** The configuration loaded last (`Configuration.properties`). */
    var config: Config
    var problemSyncs: seq<ProblemSync>
    var watchKeys: seq<WatchKey>

    /** Problem `i` is watched through key `i`, and no two problems share a
        directory. */
    ghost predicate Valid()
      reads this
    {
      |problemSyncs| == |watchKeys| &&
      forall i, j :: 0 <= i < j < |problemSyncs| ==> problemSyncs[i].directory != problemSyncs[j].directory
    }

    /** A workspace with a loaded configuration and no open problem. */
    constructor (workspaceDirectory: string, config: Config)
      ensures this.workspaceDirectory == workspaceDirectory && this.config == config
      ensures problemSyncs == [] && watchKeys == []
      ensures Valid()
    {
      this.workspaceDirectory := workspaceDirectory;
      this.config := config;
      problemSyncs := [];
      watchKeys := [];
    }

    /** Some open problem lives in `directory`. */
    predicate IsOpen(directory: string)
      reads this
    {
      exists i :: 0 <= i < |problemSyncs| && problemSyncs[i].directory == directory
    }

    /** The scan of `addProblem`: the first open problem whose directory
        is `directory`, or the number of open problems when there is none. */
    method FindDirectory(directory: string) returns (index: nat)
      ensures index <= |problemSyncs|
      ensures index < |problemSyncs| ==> problemSyncs[index].directory == directory
      ensures index == |problemSyncs| <==> !IsOpen(directory)
    {
      index := 0;
      while index < |problemSyncs| && problemSyncs[index].directory != directory
        invariant index <= |problemSyncs|
        invariant forall j :: 0 <= j < index ==> problemSyncs[j].directory != directory
      {
        index := index + 1;
      }
    }

    /** `addProblem`: a problem whose directory is already open is refused
        with nothing registered; otherwise its files are created, and the
        sync and a fresh key are appended at the same index. `onDisk` is
        what the new directory holds beforehand. */
    method AddProblem(newProblem: Problem, getValue: (string, bool) -> string, problemChanged: bool,
                      onDisk: map<string, string>) returns (r: Result<ProblemSync, string>)
      requires "problem directory" in config && "test list file" in config
      modifies this`problemSyncs, this`watchKeys
      ensures var directory := JoinPath(workspaceDirectory, Substituted(config["problem directory"], None, getValue, true));
              (r.Err? <==> old(IsOpen(directory))) &&
              (r.Err? ==> r.error == DuplicateMessage(directory)) &&
              (r.Ok? ==> r.value.directory == directory)
      ensures r.Err? ==> problemSyncs == old(problemSyncs) && watchKeys == old(watchKeys)
      ensures r.Ok? ==> fresh(r.value) && r.value.problem == newProblem &&
                        r.value.files == WithAllTestFiles(onDisk, r.value.settings, newProblem.testCases)[
                                           r.value.settings.listFileName := ListFileContent(newProblem.testCases)]
      ensures r.Ok? ==> problemSyncs == old(problemSyncs) + [r.value] &&
                        |watchKeys| == |old(watchKeys)| + 1 && watchKeys[..|old(watchKeys)|] == old(watchKeys) &&
                        fresh(watchKeys[|old(watchKeys)|]) && !watchKeys[|old(watchKeys)|].cancelled
      ensures old(Valid()) ==> Valid()
    {
      var newProblemSync := new ProblemSync(workspaceDirectory, newProblem, config, getValue, problemChanged, onDisk);
      var directory := newProblemSync.directory;
      var index := FindDirectory(directory);
      if index < |problemSyncs| {
        return Err(DuplicateMessage(problemSyncs[index].directory));
      }
      // Registering touches only the two lists and creating the files only
      // the new sync's directory, so doing the creation last ends in the
      // same state.
      Register(newProblemSync);
      newProblemSync.Initialize();
      r := Ok(newProblemSync);
    }

    /** The registration step of `addProblem`: the sync and a fresh key
        watching it are appended at the same index. */
    method Register(sync: ProblemSync)
      modifies this`problemSyncs, this`watchKeys
      ensures problemSyncs == old(problemSyncs) + [sync]
      ensures |watchKeys| == |old(watchKeys)| + 1 && watchKeys[..|old(watchKeys)|] == old(watchKeys)
      ensures fresh(watchKeys[|old(watchKeys)|]) && !watchKeys[|old(watchKeys)|].cancelled
      ensures old(Valid()) && !old(IsOpen(sync.directory)) ==> Valid()
    {
      var key := new WatchKey();
      problemSyncs := problemSyncs + [sync];
      watchKeys := watchKeys + [key];
    }

    /** `closeProblem`: with `delete`, the directory is walked and its
        files deleted first, a failure being reported as a message; either
        way problem `index` and its key leave both lists and the key is
        cancelled. `walkOf` gives the order in which the walk lists a
        directory's files, `locked` the files the system refuses to delete. */
    method CloseProblem(index: nat, delete: bool, walkOf: string -> seq<string>, locked: set<string>)
      returns (error: Option<string>)
      requires index < |problemSyncs| && index < |watchKeys|
      modifies this`problemSyncs, this`watchKeys, (problemSyncs[index] as ProblemSync)`files, (watchKeys[index] as WatchKey)`cancelled
      ensures error == old(CloseError(problemSyncs[index], delete, walkOf, locked))
      ensures var sync := old(problemSyncs)[index];
              sync.files == if delete then WalkDelete(old(sync.files), walkOf(sync.directory), locked).0 else old(sync.files)
      ensures problemSyncs == old(problemSyncs)[..index] + old(problemSyncs)[index + 1..]
      ensures watchKeys == old(watchKeys)[..index] + old(watchKeys)[index + 1..]
      ensures old(watchKeys)[index].cancelled
      ensures old(Valid()) ==> Valid()
    {
      error := None;
      var sync := problemSyncs[index];
      if delete {
        var r := sync.DeleteFromDisk(walkOf(sync.directory), locked);
        if r.Fail? {
          error := Some(DeletionMessage(sync.directory, r.error));
        }
      }
      var key := watchKeys[index];
      problemSyncs := problemSyncs[..index] + problemSyncs[index + 1..];
      key.Cancel();
      watchKeys := watchKeys[..index] + watchKeys[index + 1..];
      ghost var kept := problemSyncs;
      assert forall i :: 0 <= i < |kept| ==> kept[i] == old(problemSyncs)[if i < index then i else i + 1];
    }

    /** One round of `closeAllProblems`: the first problem is closed, and
        its message, if any, is added to those reported so far. */
    method CloseFront(delete: bool, walkOf: string -> seq<string>, locked: set<string>, errors: seq<string>,
                      ghost total: seq<string>, ghost syncs0: seq<ProblemSync>, ghost keys0: seq<WatchKey>,
                      ghost k: nat) returns (reported: seq<string>)
      requires Valid() && problemSyncs != []
      requires k < |syncs0| == |keys0| && problemSyncs == syncs0[k..] && watchKeys == keys0[k..]
      requires forall i, j :: 0 <= i < j < |syncs0| ==> syncs0[i] != syncs0[j]
      requires forall j :: 0 <= j < k ==> keys0[j].cancelled
      requires errors + CloseErrors(problemSyncs, delete, walkOf, locked) == total
      modifies this`problemSyncs, this`watchKeys, (problemSyncs[0] as ProblemSync)`files, (watchKeys[0] as WatchKey)`cancelled
      ensures problemSyncs == syncs0[k + 1..] && watchKeys == keys0[k + 1..]
      ensures forall j :: 0 <= j <= k ==> keys0[j].cancelled
      ensures forall j :: 0 <= j < |syncs0| ==>
                syncs0[j].files == if delete && j == k
                                   then WalkDelete(old(syncs0[j].files), walkOf(syncs0[j].directory), locked).0
                                   else old(syncs0[j].files)
      ensures Valid()
      ensures reported + CloseErrors(problemSyncs, delete, walkOf, locked) == total
    {
      ghost var here, keysHere := problemSyncs, watchKeys;
      ghost var front, frontKey := syncs0[k], keys0[k];
      ErrorsAfterFront(errors, here, delete, walkOf, locked, total);
      ghost var rest := CloseErrors(here[1..], delete, walkOf, locked);
      assert here[0] !in here[1..] by {
        forall j | 0 <= j < |here[1..]| ensures here[1..][j] != here[0] {
          assert here[0].directory != here[j + 1].directory;
        }
      }
      var error := CloseProblem(0, delete, walkOf, locked);
      SpliceFirst(here);
      SpliceFirst(keysHere);
      assert problemSyncs == syncs0[k + 1..] by {
        assert syncs0[k..][1..] == syncs0[k + 1..];
      }
      assert watchKeys == keys0[k + 1..] by {
        assert keys0[k..][1..] == keys0[k + 1..];
      }
      forall j | 0 <= j <= k ensures keys0[j].cancelled {
        if keys0[j] != frontKey {
          assert j < k;
        }
      }
      forall j | 0 <= j < |syncs0| && j != k ensures syncs0[j].files == old(syncs0[j].files) {
        assert syncs0[j] != front;
      }
      assert CloseErrors(problemSyncs, delete, walkOf, locked) == rest;
      reported := errors;
      if error.Some? {
        reported := reported + [error.value];
      }
    }

    /** `closeAllProblems`: problems are closed from the front until none is
        left; every key ends cancelled, every directory is walked when
        deleting, and the reported messages follow the problems' order. */
    method CloseAllProblems(delete: bool, walkOf: string -> seq<string>, locked: set<string>)
      returns (errors: seq<string>)
      requires Valid()
      modifies this`problemSyncs, this`watchKeys, problemSyncs`files, watchKeys`cancelled
      ensures problemSyncs == [] && watchKeys == []
      ensures forall j :: 0 <= j < |old(watchKeys)| ==> old(watchKeys)[j].cancelled
      ensures errors == old(CloseErrors(problemSyncs, delete, walkOf, locked))
      ensures forall j :: 0 <= j < |old(problemSyncs)| ==>
                var s := old(problemSyncs)[j];
                s.files == if delete then WalkDelete(old(s.files), walkOf(s.directory), locked).0 else old(s.files)
      ensures Valid()
    {
      ghost var syncs0 := problemSyncs;
      ghost var keys0 := watchKeys;
      ghost var total := CloseErrors(syncs0, delete, walkOf, locked);
      DistinctDirectories(syncs0);
      errors := [];
      ghost var k := 0;
      while problemSyncs != []
        invariant Valid()
        invariant 0 <= k <= |syncs0|
        invariant problemSyncs == syncs0[k..] && watchKeys == keys0[k..]
        invariant forall j :: 0 <= j < k ==> keys0[j].cancelled
        invariant forall j :: 0 <= j < |syncs0| ==>
                    syncs0[j].files == if delete && j < k
                                       then WalkDelete(old(syncs0[j].files), walkOf(syncs0[j].directory), locked).0
                                       else old(syncs0[j].files)
        invariant errors + CloseErrors(problemSyncs, delete, walkOf, locked) == total
        decreases |problemSyncs|
      {
        errors := CloseFront(delete, walkOf, locked, errors, total, syncs0, keys0, k);
        k := k + 1;
      }
    }

    /** The body of the watcher loop for one signalled key: the scan finds
        the first position holding the key; an unknown key dispatches
        nothing and keeps its events, a known one hands all events but
        OVERFLOW, in order, to the problem at that position. */
    method Dispatch(key: WatchKey) returns (target: Option<nat>, delivered: seq<WatchEvent>)
      modifies key`pending
      ensures key !in watchKeys ==> target == None && delivered == [] && key.pending == old(key.pending)
      ensures key in watchKeys ==> target == Some(KeyIndex(watchKeys, key)) &&
                                   delivered == Delivered(old(key.pending)) && key.pending == []
      ensures target.Some? ==> target.value < |watchKeys| && watchKeys[target.value] == key
    {
      var index := 0;
      while index < |watchKeys| && key != watchKeys[index]
        invariant 0 <= index <= KeyIndex(watchKeys, key)
      {
        index := index + 1;
      }
      if index == |watchKeys| {
        return None, [];
      }
      var events := key.PollEvents();
      delivered := [];
      var e := 0;
      while e < |events|
        invariant 0 <= e <= |events|
        invariant delivered == Delivered(events[..e])
        invariant key.pending == []
      {
        assert events[..e + 1] == events[..e] + [events[e]];
        DeliveredConcat(events[..e], [events[e]]);
        if events[e].kind != Overflow {
          delivered := delivered + [events[e]];
        }
        e := e + 1;
      }
      assert events[..e] == events;
      target := Some(index);
    }

    /** The two outcomes of `selectWorkspace` once a folder was chosen, and
        the dialog closed without one. `choice` is the chosen folder and
        `loaded` the configuration read from it, if valid. Only a valid
        choice touches anything: it closes every problem without deleting. */
    method SelectWorkspace(choice: Option<string>, loaded: Option<Config>) returns (result: int)
      requires Valid()
      modifies this, problemSyncs`files, watchKeys`cancelled
      ensures choice.None? ==> result == CLOSED_OPTION
      ensures choice.Some? && loaded.None? ==> result == NO_OPTION
      ensures choice.Some? && loaded.Some? ==> result == YES_OPTION
      ensures result != YES_OPTION ==> workspaceDirectory == old(workspaceDirectory) && config == old(config) &&
                                        problemSyncs == old(problemSyncs) && watchKeys == old(watchKeys) &&
                                        forall k :: k in old(watchKeys) ==> k.cancelled == old(k.cancelled)
      ensures result == YES_OPTION ==> workspaceDirectory == choice.value && config == loaded.value &&
                                       problemSyncs == [] && watchKeys == [] &&
                                       forall k :: k in old(watchKeys) ==> k.cancelled
      ensures forall s :: s in old(problemSyncs) ==> s.files == old(s.files)
      ensures Valid()
    {
      if choice.None? {
        return CLOSED_OPTION;
      }
      if loaded.None? {
        return NO_OPTION;
      }
      config := loaded.value;
      var _ := CloseAllProblems(false, _ => [], {});
      workspaceDirectory := choice.value;
      result := YES_OPTION;
    }
  }
}

/** `ListSandbox`: the status of every sandbox the run-storage directory
    names. Unlike the fail-fast verbs, a sandbox whose status fails is
    skipped and the listing goes on; only a failure to read the directory
    itself is returned, and a missing directory is an empty listing. */
module Listing {
  import opened Calls
  import opened Reports

  /** What reading the run-storage directory yields: the persistence driver
      fails, opening the directory fails (`notExist` when it does not
      exist), reading its entries fails, or the sandbox identifiers it names. */
  datatype Storage =
    | DriverFailed(driverErr: Error)
    | OpenFailed(openErr: Error, notExist: bool)
    | ReadFailed(readErr: Error)
    | Listed(ids: seq<string>)

  /** Every stored sandbox comes with the range order of its container map. */
  ghost predicate Ranged(stored: string -> Sandbox, orderOf: string -> seq<string>) {
    forall id :: KeysOf(stored(id), orderOf(id))
  }

  /** The status `StatusSandbox` returns for one identifier. */
  function StatusOf(id: string, o: Oracle, stored: string -> Sandbox, orderOf: string -> seq<string>): StatusResult
    requires Ranged(stored, orderOf)
  {
    StatusSandboxResult(id, o, stored(id), orderOf(id))
  }

  /** The status of each identifier, in directory order. */
  function Results(ids: seq<string>, o: Oracle, stored: string -> Sandbox, orderOf: string -> seq<string>)
    : (rs: seq<StatusResult>)
    requires Ranged(stored, orderOf)
    ensures |rs| == |ids| && forall i :: 0 <= i < |ids| ==> rs[i] == StatusOf(ids[i], o, stored, orderOf)
  {
    seq(|ids|, i requires 0 <= i < |ids| => StatusOf(ids[i], o, stored, orderOf))
  }

  /** The statuses among `rs` that succeeded, in order. */
  function Kept(rs: seq<StatusResult>): seq<SandboxStatus> {
    if rs == [] then []
    else
      var r := rs[|rs| - 1];
      Kept(rs[..|rs| - 1]) + (if r.err.Ok? then [r.status] else [])
  }

  /** The statuses that succeed, in directory order. */
  function Collected(ids: seq<string>, o: Oracle, stored: string -> Sandbox, orderOf: string -> seq<string>): seq<SandboxStatus>
    requires Ranged(stored, orderOf)
  {
    Kept(Results(ids, o, stored, orderOf))
  }

  /** What `ListSandbox` returns. Only reading the directory can fail, and a
      missing directory is an empty listing with nil. */
  function ListResult(storage: Storage, o: Oracle, stored: string -> Sandbox, orderOf: string -> seq<string>)
    : (r: (seq<SandboxStatus>, Status))
    requires Ranged(stored, orderOf)
    ensures r.1.Err? <==> storage.DriverFailed? || storage.ReadFailed? || (storage.OpenFailed? && !storage.notExist)
    ensures !storage.Listed? ==> r.0 == []
    ensures storage.Listed? ==> r.0 == Collected(storage.ids, o, stored, orderOf)
  {
    match storage
    case DriverFailed(e) => ([], Err(e))
    case OpenFailed(e, notExist) => if notExist then ([], Ok) else ([], Err(e))
    case ReadFailed(e) => ([], Err(e))
    case Listed(ids) => (Collected(ids, o, stored, orderOf), Ok)
  }

  /** `ListSandbox` as written: `StatusSandbox` for each identifier in
      directory order, skipping those that fail. */
  method ListSandbox(storage: Storage, o: Oracle, stored: string -> Sandbox, orderOf: string -> seq<string>)
    returns (list: seq<SandboxStatus>, err: Status)
    requires Ranged(stored, orderOf)
    ensures (list, err) == ListResult(storage, o, stored, orderOf)
  {
    match storage {
      case DriverFailed(e) =>
        return [], Err(e);
      case OpenFailed(e, notExist) =>
        if notExist {
          return [], Ok;
        }
        return [], Err(e);
      case ReadFailed(e) =>
        return [], Err(e);
      case Listed(ids) =>
        ghost var rs := Results(ids, o, stored, orderOf);
        list := [];
        for i := 0 to |ids|
          invariant list == Kept(rs[..i])
        {
          assert rs[..i + 1][..i] == rs[..i];
          var status, statusErr, _ := StatusSandbox(ids[i], o, stored(ids[i]), orderOf(ids[i]));
          if statusErr.Err? {
            continue;
          }
          list := list + [status];
        }
        assert rs[..|ids|] == rs;
        return list, Ok;
    }
  }

  /** Filtering two runs of results filters each in turn. */
  lemma {:induction false} KeptAppend(a: seq<StatusResult>, b: seq<StatusResult>)
    ensures Kept(a + b) == Kept(a) + Kept(b)
    decreases |b|
  {
    if b == [] {
      assert a + b == a;
    } else {
      var init := b[..|b| - 1];
      assert (a + b)[..|a + b| - 1] == a + init;
      assert (a + b)[|a + b| - 1] == b[|b| - 1];
      KeptAppend(a, init);
    }
  }

  /** The statuses of `a + [id] + b` are those of each part in turn. */
  lemma ResultsSplit(a: seq<string>, id: string, b: seq<string>, o: Oracle,
                     stored: string -> Sandbox, orderOf: string -> seq<string>)
    requires Ranged(stored, orderOf)
    ensures Results(a + [id] + b, o, stored, orderOf)
         == Results(a, o, stored, orderOf) + [StatusOf(id, o, stored, orderOf)] + Results(b, o, stored, orderOf)
  {
  }

  /** A sandbox whose status fails neither aborts the listing nor appears
      in it: the listing is what it would be without that identifier. */
  lemma SkipsFailingEntry(a: seq<string>, id: string, b: seq<string>, o: Oracle,
                          stored: string -> Sandbox, orderOf: string -> seq<string>)
    requires Ranged(stored, orderOf) && StatusOf(id, o, stored, orderOf).err.Err?
    ensures Collected(a + [id] + b, o, stored, orderOf) == Collected(a + b, o, stored, orderOf)
  {
    var ra, rb := Results(a, o, stored, orderOf), Results(b, o, stored, orderOf);
    var r := StatusOf(id, o, stored, orderOf);
    ResultsSplit(a, id, b, o, stored, orderOf);
    assert Results(a + b, o, stored, orderOf) == ra + rb;
    KeptAppend(ra + [r], rb);
    KeptAppend(ra, [r]);
    KeptAppend(ra, rb);
    assert [r][..0] == [];
  }

  /** A sandbox whose status succeeds appears in the listing, at its place
      in directory order. */
  lemma KeepsSucceedingEntry(a: seq<string>, id: string, b: seq<string>, o: Oracle,
                             stored: string -> Sandbox, orderOf: string -> seq<string>)
    requires Ranged(stored, orderOf) && StatusOf(id, o, stored, orderOf).err.Ok?
    ensures Collected(a + [id] + b, o, stored, orderOf)
         == Collected(a, o, stored, orderOf) + [StatusOf(id, o, stored, orderOf).status] + Collected(b, o, stored, orderOf)
  {
    var ra, rb := Results(a, o, stored, orderOf), Results(b, o, stored, orderOf);
    var r := StatusOf(id, o, stored, orderOf);
    ResultsSplit(a, id, b, o, stored, orderOf);
    KeptAppend(ra + [r], rb);
    KeptAppend(ra, [r]);
    assert [r][..0] == [];
  }

  /** Every kept status is the status of a successful result, and there are
      no more of them than results. */
  lemma {:induction false} KeptSound(rs: seq<StatusResult>)
    ensures |Kept(rs)| <= |rs|
    ensures forall st :: st in Kept(rs) ==> exists i :: 0 <= i < |rs| && rs[i] == StatusResult(st, Ok)
  {
    if rs != [] {
      var init := rs[..|rs| - 1];
      KeptSound(init);
      forall st | st in Kept(rs)
        ensures exists i :: 0 <= i < |rs| && rs[i] == StatusResult(st, Ok)
      {
        if st in Kept(init) {
          var i :| 0 <= i < |init| && init[i] == StatusResult(st, Ok);
          assert rs[i] == init[i];
        } else {
          assert rs[|rs| - 1] == StatusResult(st, Ok);
        }
      }
    }
  }

  /** When every result succeeded, all of them are kept, in order. */
  lemma {:induction false} KeptComplete(rs: seq<StatusResult>)
    requires forall i :: 0 <= i < |rs| ==> rs[i].err.Ok?
    ensures |Kept(rs)| == |rs| && forall i :: 0 <= i < |rs| ==> Kept(rs)[i] == rs[i].status
  {
    if rs != [] {
      KeptComplete(rs[..|rs| - 1]);
    }
  }

  /** Every listed status is the successful status of a listed identifier,
      and there are no more of them than identifiers. */
  lemma CollectedSound(ids: seq<string>, o: Oracle, stored: string -> Sandbox, orderOf: string -> seq<string>)
    requires Ranged(stored, orderOf)
    ensures var c := Collected(ids, o, stored, orderOf);
            && |c| <= |ids|
            && (forall st :: st in c ==>
                  exists i :: 0 <= i < |ids| && StatusOf(ids[i], o, stored, orderOf) == StatusResult(st, Ok))
  {
    KeptSound(Results(ids, o, stored, orderOf));
  }

  /** When every status succeeds, every identifier is listed, in order. */
  lemma CollectedComplete(ids: seq<string>, o: Oracle, stored: string -> Sandbox, orderOf: string -> seq<string>)
    requires Ranged(stored, orderOf)
    requires forall i :: 0 <= i < |ids| ==> StatusOf(ids[i], o, stored, orderOf).err.Ok?
    ensures var c := Collected(ids, o, stored, orderOf);
            |c| == |ids| && forall i :: 0 <= i < |ids| ==> c[i] == StatusOf(ids[i], o, stored, orderOf).status
  {
    KeptComplete(Results(ids, o, stored, orderOf));
  }
}

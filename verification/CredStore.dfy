/**
 The credentials file of the command-line client (cliauth/credstore.go).
 */
module CredStore {
  import opened Wrappers
  import opened Text

  datatype Credentials = Credentials(issuer: string, clientID: string, redirectURIs: seq<string>, accessToken: string,
                                     refreshToken: string, expiresAt: int, scope: string)

  type Hosts = map<string, Credentials>

  /** What is at the path. A document may lack its hosts. */
  datatype File = Absent | Unreadable | Garbled | Document(current: string, hosts: Option<Hosts>)

  datatype Loaded = NotLoggedIn | LoadError | Loaded(current: string, hosts: Hosts)

  function LoadAll(file: File): Loaded {
    match file
    case Absent => NotLoggedIn
    case Unreadable => LoadError
    case Garbled => LoadError
    case Document(current, hosts) => if hosts.None? then NotLoggedIn else Loaded(current, hosts.value)
  }

  /** The step at which the file system refuses, if it does. */
  datatype Fault = NoFault | MkdirFails | CreateTempFails | ChmodFails | WriteFails | CloseFails | RenameFails | RemoveFails

  /** The temporary file is there by then. */
  predicate FailsLate(fault: Fault) {
    fault.ChmodFails? || fault.WriteFails? || fault.CloseFails? || fault.RenameFails?
  }

  datatype Status = Ok | Error

  datatype Result = Result(file: File, status: Status)

  function Written(file: File, current: string, hosts: Hosts, fault: Fault): Result {
    if fault.NoFault? || fault.RemoveFails? then Result(Document(current, Some(hosts)), Ok) else Result(file, Error)
  }

  function Removed(file: File, fault: Fault): Result {
    if fault.RemoveFails? && !file.Absent? then Result(file, Error) else Result(Absent, Ok)
  }

  function FirstHost(hosts: Hosts): (r: string)
    ensures hosts != map[] ==> IsLeast(r, hosts.Keys)
  {
    var keys := Sorted(hosts.Keys);
    if hosts == map[] then "" else
    assert keys != [] by { var k :| k in hosts.Keys; assert k in keys; }
    assert forall i :: 0 < i < |keys| ==> Less(keys[0], keys[i]);
    keys[0]
  }

  function SaveHost(file: File, host: string, creds: Credentials, fault: Fault): Result {
    if host == "" then Result(file, Error)
    else match LoadAll(file)
      case LoadError => Result(file, Error)
      case NotLoggedIn => Written(file, host, map[host := creds], fault)
      case Loaded(current, hosts) => Written(file, if current == "" then host else current, hosts[host := creds], fault)
  }

  function UseHost(file: File, host: string, fault: Fault): Result {
    match LoadAll(file)
    case Loaded(current, hosts) => if host in hosts then Written(file, host, hosts, fault) else Result(file, Error)
    case _ => Result(file, Error)
  }

  function DeleteHost(file: File, host: string, fault: Fault): Result {
    match LoadAll(file)
    case NotLoggedIn => Result(file, Ok)
    case LoadError => Result(file, Error)
    case Loaded(current, hosts) =>
      if host !in hosts then Result(file, Ok)
      else
        var rest := hosts - {host};
        if rest == map[] then Removed(file, fault)
        else Written(file, if current == host then FirstHost(rest) else current, rest, fault)
  }

  function LoadCurrent(file: File): Option<(string, Credentials)> {
    match LoadAll(file)
    case Loaded(current, hosts) => if current != "" && current in hosts then Some((current, hosts[current])) else None
    case _ => None
  }

  class Store {
    var file: File

    /** The temporary files beside it. */
    var temps: set<nat>

    constructor (file: File)
      ensures this.file == file && temps == {}
    {
      this.file, temps := file, {};
    }

    /**
     A new file is prepared aside and renamed into place; on any failure the old one stays and the new
     one is removed, unless `sticks` says that removing it fails too.
     */
    method WriteFile(current: string, hosts: Hosts, fault: Fault, temp: nat, sticks: bool) returns (status: Status)
      requires temp !in temps
      modifies this
      ensures Result(file, status) == Written(old(file), current, hosts, fault)
      ensures temps == old(temps) + if sticks && FailsLate(fault) then {temp} else {}
    {
      if fault.MkdirFails? {
        return Error;
      }
      if fault.CreateTempFails? {
        return Error;
      }
      temps := temps + {temp};
      if fault.ChmodFails? {
        CleanUp(temp, sticks);
        return Error;
      }
      if fault.WriteFails? {
        CleanUp(temp, sticks);
        return Error;
      }
      if fault.CloseFails? {
        CleanUp(temp, sticks);
        return Error;
      }
      if fault.RenameFails? {
        CleanUp(temp, sticks);
        return Error;
      }
      temps := temps - {temp};
      file := Document(current, Some(hosts));
      return Ok;
    }

    /** Best effort: the error of a removal that fails is ignored. */
    method CleanUp(temp: nat, sticks: bool)
      modifies this`temps
      ensures temps == if sticks then old(temps) else old(temps) - {temp}
    {
      if !sticks {
        temps := temps - {temp};
      }
    }

    method RemoveFile(fault: Fault) returns (status: Status)
      modifies this
      ensures Result(file, status) == Removed(old(file), fault) && temps == old(temps)
    {
      if fault.RemoveFails? && !file.Absent? {
        return Error;
      }
      file := Absent;
      return Ok;
    }

    method Save(host: string, creds: Credentials, fault: Fault, temp: nat, sticks: bool) returns (status: Status)
      requires temp !in temps
      modifies this
      ensures Result(file, status) == SaveHost(old(file), host, creds, fault)
      ensures temps == old(temps) || (sticks && status.Error? && FailsLate(fault) && temps == old(temps) + {temp})
    {
      if host == "" {
        return Error;
      }
      var st := LoadAll(file);
      if st.LoadError? {
        return Error;
      }
      var current, hosts := "", map[];
      if st.Loaded? {
        current, hosts := st.current, st.hosts;
      }
      hosts := hosts[host := creds];
      if current == "" {
        current := host;
      }
      status := WriteFile(current, hosts, fault, temp, sticks);
    }

    method Use(host: string, fault: Fault, temp: nat, sticks: bool) returns (status: Status)
      requires temp !in temps
      modifies this
      ensures Result(file, status) == UseHost(old(file), host, fault)
      ensures temps == old(temps) || (sticks && status.Error? && FailsLate(fault) && temps == old(temps) + {temp})
    {
      var st := LoadAll(file);
      if !st.Loaded? {
        return Error;
      }
      if host !in st.hosts {
        return Error;
      }
      status := WriteFile(host, st.hosts, fault, temp, sticks);
    }

    method Delete(host: string, fault: Fault, temp: nat, sticks: bool) returns (status: Status)
      requires temp !in temps
      modifies this
      ensures Result(file, status) == DeleteHost(old(file), host, fault)
      ensures temps == old(temps) || (sticks && status.Error? && FailsLate(fault) && temps == old(temps) + {temp})
    {
      var st := LoadAll(file);
      if st.NotLoggedIn? {
        return Ok;
      }
      if st.LoadError? {
        return Error;
      }
      if host !in st.hosts {
        return Ok;
      }
      var hosts := st.hosts - {host};
      var current := st.current;
      if current == host {
        current := FirstHost(hosts);
      }
      if hosts == map[] {
        status := RemoveFile(fault);
      } else {
        status := WriteFile(current, hosts, fault, temp, sticks);
      }
    }
  }

  // ---------------------------------------------------------------------------------------------
  // Runs
  // ---------------------------------------------------------------------------------------------

  datatype Action =
    | Save(host: string, creds: Credentials, fault: Fault)
    | Use(host: string, fault: Fault)
    | Delete(host: string, fault: Fault)
    | DeleteAll(fault: Fault)

  function Step(file: File, a: Action): Result {
    match a
    case Save(host, creds, fault) => SaveHost(file, host, creds, fault)
    case Use(host, fault) => UseHost(file, host, fault)
    case Delete(host, fault) => DeleteHost(file, host, fault)
    case DeleteAll(fault) => Removed(file, fault)
  }

  function Run(file: File, actions: seq<Action>): File
    decreases |actions|
  {
    if actions == [] then file else Run(Step(file, actions[0]).file, actions[1..])
  }

  /** No file, or a file whose current host is one of its hosts. */
  predicate Sound(file: File) {
    || file.Absent?
    || (file.Document? && file.hosts.Some? && file.current in file.hosts.value && "" !in file.hosts.value)
  }

  lemma StepKeepsSound(file: File, a: Action)
    requires Sound(file)
    ensures Sound(Step(file, a).file)
  {
  }

  lemma {:induction false} RunKeepsSound(file: File, actions: seq<Action>)
    requires Sound(file)
    ensures Sound(Run(file, actions))
    decreases |actions|
  {
    if actions != [] {
      StepKeepsSound(file, actions[0]);
      RunKeepsSound(Step(file, actions[0]).file, actions[1..]);
    }
  }

  /** From no file, after any operations with any failures, the current host can be loaded whenever there is a file. */
  lemma CurrentIsAlwaysLoadable(actions: seq<Action>)
    ensures var file := Run(Absent, actions); file.Absent? || LoadCurrent(file).Some?
  {
    RunKeepsSound(Absent, actions);
  }

  /** A failed operation leaves the file as it was. */
  lemma FailureChangesNothing(file: File, a: Action)
    requires Step(file, a).status.Error?
    ensures Step(file, a).file == file
  {
  }

  /** What is saved can be loaded, and every other host keeps its credentials. */
  lemma SaveThenLoad(file: File, host: string, creds: Credentials, fault: Fault, other: string)
    requires SaveHost(file, host, creds, fault).status.Ok?
    ensures var r := LoadAll(SaveHost(file, host, creds, fault).file);
            && r.Loaded? && host in r.hosts && r.hosts[host] == creds
            && (other != host ==>
                  (other in r.hosts <==> LoadAll(file).Loaded? && other in LoadAll(file).hosts) &&
                  (other in r.hosts ==> r.hosts[other] == LoadAll(file).hosts[other]))
            && r.current == if LoadAll(file).Loaded? && LoadAll(file).current != "" then LoadAll(file).current else host
  {
  }

  /** A successful Use makes that host the current one and changes no credentials. */
  lemma UseThenLoad(file: File, host: string, fault: Fault)
    requires UseHost(file, host, fault).status.Ok? && host != ""
    ensures LoadAll(file).Loaded? && host in LoadAll(file).hosts
    ensures var after := UseHost(file, host, fault).file;
            && LoadCurrent(after) == Some((host, LoadAll(file).hosts[host]))
            && LoadAll(after).hosts == LoadAll(file).hosts
  {
  }

  /** Nothing on the way to the new file fails. */
  predicate WriteOk(fault: Fault) {
    !fault.MkdirFails? && !fault.CreateTempFails? && !FailsLate(fault)
  }

  /** A file that is there and cannot be understood. */
  predicate Broken(file: File) {
    file.Unreadable? || file.Garbled?
  }

  predicate Knows(file: File, host: string) {
    file.Document? && file.hosts.Some? && host in file.hosts.value
  }

  /** When each operation succeeds. */
  lemma SucceedsIff(file: File, host: string, creds: Credentials, fault: Fault)
    ensures SaveHost(file, host, creds, fault).status.Ok? <==> host != "" && !Broken(file) && WriteOk(fault)
    ensures UseHost(file, host, fault).status.Ok? <==> Knows(file, host) && WriteOk(fault)
    ensures DeleteHost(file, host, fault).status.Ok? <==>
            !Broken(file) && (Knows(file, host) ==> if file.hosts.value.Keys == {host} then !fault.RemoveFails? else WriteOk(fault))
    ensures Removed(file, fault).status.Ok? <==> file.Absent? || !fault.RemoveFails?
  {
    if Knows(file, host) {
      var hosts := file.hosts.value;
      assert (hosts - {host}).Keys == hosts.Keys - {host};
      if hosts - {host} == map[] {
        assert hosts.Keys == {host} by {
          assert (hosts - {host}).Keys == {};
        }
      } else {
        var other :| other in hosts - {host};
        assert other in hosts.Keys;
      }
    }
  }

  /** Deleting the current host moves on to the least one left; deleting another leaves the current one alone. */
  lemma DeleteMovesCurrent(actions: seq<Action>, host: string)
    requires Run(Absent, actions).Document?
    ensures var before, after := LoadAll(Run(Absent, actions)), LoadAll(DeleteHost(Run(Absent, actions), host, NoFault).file);
            && before.Loaded?
            && (host in before.hosts && |before.hosts| > 1 ==>
                  && after.Loaded? && after.hosts == before.hosts - {host}
                  && (if before.current == host then IsLeast(after.current, after.hosts.Keys) else after.current == before.current))
            && (before.hosts.Keys == {host} ==> after.NotLoggedIn?)
            && (host !in before.hosts ==> after == before)
  {
    RunKeepsSound(Absent, actions);
    var file := Run(Absent, actions);
    var hosts := file.hosts.value;
    if host in hosts && |hosts| > 1 {
      var rest := hosts - {host};
      assert rest.Keys == hosts.Keys - {host};
      assert |hosts.Keys - {host}| == |hosts.Keys| - 1;
      assert rest != map[] by {
        assert |hosts| == |hosts.Keys|;
        assert rest == map[] ==> |rest.Keys| == 0;
      }
    }
  }
}

/** The client's view of server reachability: a status that is set step by step
    while health probes run, the time of the last completed probe, and the flags
    derived from the status. Probe outcomes and the clock are inputs. */
module ServerStatus {
  import opened Js

  datatype Status = Checking | Online | Offline | Starting

  datatype Flags = Flags(isOnline: bool, isOffline: bool, isChecking: bool, isStarting: bool)

  /** The four flags the hook returns: exactly one of them holds. */
  function FlagsOf(s: Status): (f: Flags)
    ensures f.isOnline <==> s == Online
    ensures f.isOffline <==> s == Offline
    ensures f.isChecking <==> s == Checking
    ensures f.isStarting <==> s == Starting
    ensures (if f.isOnline then 1 else 0) + (if f.isOffline then 1 else 0)
          + (if f.isChecking then 1 else 0) + (if f.isStarting then 1 else 0) == 1
  {
    Flags(s == Online, s == Offline, s == Checking, s == Starting)
  }

  /** The status a completed probe leaves behind. */
  function ProbeStatus(p: Probe): (s: Status)
    ensures s == Online <==> ProbeOk(p)
    ensures s != Online ==> s == Offline
  {
    if ProbeOk(p) then Online else Offline
  }

  /** The hook's state: `status`, `lastChecked` (a clock reading), and, as a
      ghost, every status it has been set to, in order. */
  class ServerStatusHook {
    var status: Status
    var lastChecked: Option<int>
    ghost var history: seq<Status>

    /** On mount the status is `checking` and nothing has been checked yet. */
    constructor()
      ensures status == Checking && lastChecked == None && history == [Checking]
    {
      status := Checking;
      lastChecked := None;
      history := [Checking];
    }

    method SetStatus(s: Status)
      modifies this
      ensures status == s && history == old(history) + [s] && lastChecked == old(lastChecked)
    {
      status := s;
      history := history + [s];
    }

    /** `checkServerStatus`: passes through `checking`, ends `online` exactly when
        the probe got an `ok` response (`offline` otherwise, including a thrown
        error or timeout), records the time in both cases, and returns whether
        it ended online. */
    method CheckServerStatus(probe: Probe, now: int) returns (online: bool)
      modifies this
      ensures online <==> ProbeOk(probe)
      ensures status == ProbeStatus(probe)
      ensures online <==> status == Online
      ensures lastChecked == Some(now)
      ensures history == old(history) + [Checking, status]
    {
      SetStatus(Checking);
      if probe.Replied? && probe.reply.Ok() {
        SetStatus(Online);
        lastChecked := Some(now);
        online := true;
      } else {
        SetStatus(Offline);
        lastChecked := Some(now);
        online := false;
      }
    }

    /** `startServer`: shows `starting`, waits, then does one `checkServerStatus`
        and returns its result. */
    method StartServer(probe: Probe, now: int) returns (online: bool)
      modifies this
      ensures online <==> ProbeOk(probe)
      ensures status == ProbeStatus(probe)
      ensures lastChecked == Some(now)
      ensures history == old(history) + [Starting, Checking, status]
    {
      SetStatus(Starting);
      online := CheckServerStatus(probe, now);
    }

    /** The effect's body, run once the hook mounts (and again whenever React
        re-runs the effect): one `checkServerStatus` whose result is dropped. */
    method Effect(probe: Probe, now: int)
      modifies this
      ensures status == ProbeStatus(probe)
      ensures lastChecked == Some(now)
      ensures history == old(history) + [Checking, status]
    {
      var _ := CheckServerStatus(probe, now);
    }

    /** One firing of the 30-second interval: it probes again only while
        `offline`; in any other status it changes nothing. */
    method Tick(probe: Probe, now: int)
      modifies this
      ensures old(status) != Offline ==>
        status == old(status) && lastChecked == old(lastChecked) && history == old(history)
      ensures old(status) == Offline ==>
        status == ProbeStatus(probe) && lastChecked == Some(now)
        && history == old(history) + [Checking, status]
    {
      if status == Offline {
        var _ := CheckServerStatus(probe, now);
      }
    }
  }
}

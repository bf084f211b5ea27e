/** Values shared by the concurrency policy manager: connection entries, the
    platform they run on, and the macros that classify a channel by band. */
module ConnTypes {
  import opened Wrappers

  const MAX_CONNECTIONS := 3

  datatype Mode = Sta | Sap | P2pClient | P2pGo | Ibss

  datatype Chain = OneOne | TwoTwo

  /** One slot of the connection table. */
  datatype Conn = Conn(
    mode: Mode,
    chan: nat,
    bw: nat,
    mac: nat,
    chain: Chain,
    originalNss: nat,
    vdevId: nat,
    inUse: bool)

  /** What a slot holds after it has been zeroed. */
  const FREE_SLOT := Conn(Sta, 0, 0, 0, OneOne, 0, 0, false)

  /** Facts that stay fixed for a whole run: hardware capability, the regulatory
      state of each channel, the session limit and the configured preference. */
  datatype Platform = Platform(
    dbsCapable: bool,
    dfs: set<nat>,
    enabled: set<nat>,
    maxSessions: nat,
    systemPref: nat)
  {
    /** Only channels of the regulatory channel map have a DFS state. */
    ghost predicate Valid() {
      forall chan :: chan in dfs ==> Is24(chan) || Is5(chan)
    }
  }

  /** What the firmware, SME and configuration answer during one call. */
  datatype Env = Env(
    validChans: Option<seq<nat>>,
    unsafeChans: seq<nat>,
    mandatory: seq<nat>,
    sub20: bool,
    activeSessions: nat)

  predicate Is24(chan: nat) {
    1 <= chan <= 13
  }

  predicate Is5(chan: nat) {
    36 <= chan <= 184
  }

  /** Channel 0 stands for "no channel yet" and shares a band with nothing. */
  predicate SameBand(a: nat, b: nat) {
    a != 0 && b != 0 && Is5(a) == Is5(b)
  }

  predicate IsBeaconing(mode: Mode) {
    mode == Sap || mode == P2pGo
  }

  /** Number of connections of one mode. */
  function Count(conns: seq<Conn>, mode: Mode): nat {
    if conns == [] then 0
    else (if conns[0].mode == mode then 1 else 0) + Count(conns[1..], mode)
  }

  lemma {:induction false} CountConcat(a: seq<Conn>, b: seq<Conn>, mode: Mode)
    ensures Count(a + b, mode) == Count(a, mode) + Count(b, mode)
  {
    if a == [] {
      assert a + b == b;
    } else {
      assert (a + b)[1..] == a[1..] + b;
      CountConcat(a[1..], b, mode);
    }
  }

  /** A mode is counted exactly when some connection has it. */
  lemma {:induction false} CountPositive(conns: seq<Conn>, mode: Mode)
    ensures Count(conns, mode) > 0 <==> exists i :: 0 <= i < |conns| && conns[i].mode == mode
  {
    if conns != [] {
      CountPositive(conns[1..], mode);
      if exists i :: 0 <= i < |conns| && conns[i].mode == mode {
        var i :| 0 <= i < |conns| && conns[i].mode == mode;
        if i > 0 {
          assert conns[1..][i - 1].mode == mode;
        }
      }
    }
  }
}

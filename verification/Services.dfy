/** How long a memory service takes, in the terms of the machine: base latency, bandwidth, and the size requested. */
module Services {
  import opened Model
  import opened Protocol
  import opened Invariants
  import opened Runs

  /** The least whole number of time units in which `bandwidth` bytes a unit carry `size` bytes. */
  predicate Carries(d: nat, size: nat, bandwidth: nat) {
    d * bandwidth >= size && (d == 0 || (d - 1) * bandwidth < size)
  }

  /** There is only one such number. */
  lemma CarriesOnce(d: nat, e: nat, size: nat, bandwidth: nat)
    requires Carries(d, size, bandwidth) && Carries(e, size, bandwidth)
    ensures d == e
  {
    if d < e {
      NoMore(d, e - 1, bandwidth);
    } else if e < d {
      NoMore(e, d - 1, bandwidth);
    }
  }

  lemma NoMore(a: nat, b: nat, c: nat)
    requires a <= b
    ensures a * c <= b * c
  {
  }

  lemma ServiceCarries(cfg: Config, size: nat)
    requires cfg.bandwidth > 0
    ensures cfg.baseLatency <= ServiceTime(cfg, size)
    ensures Carries(ServiceTime(cfg, size) - cfg.baseLatency, size, cfg.bandwidth)
  {
    var b, n := cfg.bandwidth, size + cfg.bandwidth - 1;
    var d := n / b;
    assert n == d * b + n % b;
    if d > 0 {
      assert (d - 1) * b == d * b - b;
    }
  }

  /** The request that came to a channel as arrival number `i`, and how long its service took. */
  ghost predicate ServedInTime(cfg: Config, s: State, c: nat, i: nat)
    requires cfg.channels > 0 && c < |s.memory.logs| && i < |s.memory.logs[c].arrivals|
  {
    var log, tracks := s.memory.logs[c], s.shared.ledger.tracks;
    Numbered(tracks, log.arrivals[i].request) &&
    var r := tracks[log.arrivals[i].request - 1].request;
    && c == (if r.obj == 0 then 0 else (r.obj - 1) % cfg.channels)
    && (i < |log.dones| ==>
          && i < |log.starts| && log.starts[i] + cfg.baseLatency <= log.dones[i]
          && Carries(log.dones[i] - log.starts[i] - cfg.baseLatency, r.size, cfg.bandwidth))
  }

  /**
   * In every reachable state, a request is served by the channel that its object falls to, and each service that has
   * ended took the base latency and then just as long as the bandwidth needs for the requested bytes.
   */
  lemma ServicesTakeTheirTime(cfg: Config, k: nat, c: nat, i: nat)
    requires ValidConfig(cfg) && c < cfg.channels
    ensures var s := Run(cfg, k);
            |s.memory.logs| == cfg.channels && (i < |s.memory.logs[c].arrivals| ==> ServedInTime(cfg, s, c, i))
  {
    hide Run, Inv, Core, InOrderServer, Carries, ServiceTime;
    RunKeeps(cfg, k);
    ChannelsAreFifo(cfg, k, c);
    var s := Run(cfg, k);
    if i < |s.memory.logs[c].arrivals| {
      assert Core(cfg, s) by {
        KeepsCore(cfg, s);
      }
      ArrivalAt(cfg, s, c, i);
      if i < |s.memory.logs[c].dones| {
        DoneAfterService(cfg, s.memory.channels[c], s.memory.logs[c], i);
      }
      ServiceCarries(cfg, s.memory.logs[c].arrivals[i].size);
    }
  }

  lemma KeepsCore(cfg: Config, s: State)
    requires Inv(cfg, s)
    ensures Core(cfg, s)
  {
  }

  lemma DoneAfterService(cfg: Config, ch: ChannelState, log: ChannelLog, i: nat)
    requires cfg.bandwidth > 0 && InOrderServer(cfg, ch, log) && i < |log.dones|
    ensures i < |log.starts| && i < |log.arrivals|
    ensures log.dones[i] == log.starts[i] + ServiceTime(cfg, log.arrivals[i].size)
  {
  }

  lemma ArrivalAt(cfg: Config, s: State, c: nat, i: nat)
    requires Core(cfg, s) && c < cfg.channels && i < |s.memory.logs[c].arrivals|
    ensures var a, tracks := s.memory.logs[c].arrivals[i], s.shared.ledger.tracks;
            && Numbered(tracks, a.request) && a.size == tracks[a.request - 1].request.size
            && ChannelOf(tracks[a.request - 1].request.obj, cfg.channels) == c
  {
    hide Tokens, Times, Responses, Streams, OneAtATime, EventsCounted, StatsCounted, CachesSound, CachesExact;
    assert ChannelOk(cfg, s.shared.ledger.tracks, s.memory.channels[c], s.memory.logs[c], c, s.shared.queue.now);
    assert ArrivalOk(cfg, s.shared.ledger.tracks, s.memory.logs[c], c, i, s.shared.queue.now);
  }

  /** A response from memory came after two links, the wait, the base latency, and the transfer of its own bytes. */
  ghost predicate TransferredInTime(cfg: Config, l: Ledger, r: Response) {
    Numbered(l.tracks, r.request) &&
    var t := l.tracks[r.request - 1];
    r.tier == MemoryTier ==>
      2 * cfg.linkLatency + t.wait + cfg.baseLatency <= r.latency &&
      Carries(r.latency - 2 * cfg.linkLatency - t.wait - cfg.baseLatency, t.request.size, cfg.bandwidth)
  }

  /** In every reachable state this holds of every response. */
  lemma MissesTakeTheirTime(cfg: Config, k: nat, j: nat)
    requires ValidConfig(cfg) && j < |Run(cfg, k).shared.ledger.responses|
    ensures var l := Run(cfg, k).shared.ledger; TransferredInTime(cfg, l, l.responses[j])
  {
    hide Run;
    ResponseLatency(cfg, k);
    var l := Run(cfg, k).shared.ledger;
    assert OwnShare(cfg, l, l.responses[j]);
    ServiceCarries(cfg, l.tracks[l.responses[j].request - 1].request.size);
  }
}

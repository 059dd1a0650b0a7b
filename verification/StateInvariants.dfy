/** Every step of the coordinator keeps `StateInv`. */
module StateInvariants {
  import opened Transcript
  import opened Retention
  import opened Service
  import opened CoordinatorSpec
  import opened RunInvariants

  lemma InitialHolds(ephemeral: bool)
    ensures StateInv(Initial(ephemeral))
  {}

  // ---- The parts of the invariant under the three ways the state changes ----

  /** The disks of a persistent engine agree everywhere but at one key. */
  ghost predicate SameElsewhere(a: map<Key, Record>, b: map<Key, Record>, key: Key, ephemeral: bool) {
    !ephemeral ==> forall k :: k != key ==> (k in a <==> k in b) && (k in a ==> a[k] == b[k])
  }

  lemma RunInvElsewhere(key: Key, k: Key, r: Run, a: map<Key, Record>, b: map<Key, Record>, ephemeral: bool)
    requires k != key && SameElsewhere(a, b, key, ephemeral) && RunInv(k, r, a, ephemeral)
    ensures RunInv(k, r, b, ephemeral)
  {
    hide Stamps, Projection, Faithful, Control;
  }

  lemma RunsPut(runs: map<Key, Run>, a: map<Key, Record>, b: map<Key, Record>, ephemeral: bool, key: Key, r: Run)
    requires RunsInv(runs, a, ephemeral) && SameElsewhere(a, b, key, ephemeral) && RunInv(key, r, b, ephemeral)
    ensures RunsInv(runs[key := r], b, ephemeral)
  {
    hide RunInv;
    var m := runs[key := r];
    forall k <- m ensures RunInv(k, m[k], b, ephemeral) {
      if k != key { RunInvElsewhere(key, k, runs[k], a, b, ephemeral); }
    }
  }

  lemma RunsAside(runs: map<Key, Run>, a: map<Key, Record>, b: map<Key, Record>, ephemeral: bool, key: Key)
    requires RunsInv(runs, a, ephemeral) && SameElsewhere(a, b, key, ephemeral) && key !in runs
    ensures RunsInv(runs, b, ephemeral)
  {
    hide RunInv;
    forall k <- runs ensures RunInv(k, runs[k], b, ephemeral) {
      RunInvElsewhere(key, k, runs[k], a, b, ephemeral);
    }
  }

  lemma EndInvElsewhere(key: Key, k: Key, snap: Snapshot, a: map<Key, Record>, b: map<Key, Record>, ephemeral: bool)
    requires k != key && SameElsewhere(a, b, key, ephemeral) && EndInv(k, snap, a, ephemeral)
    ensures EndInv(k, snap, b, ephemeral)
  {}

  /** A record may change under a key as long as no cached end speaks for it. */
  lemma EndsAside(terminal: map<Key, Snapshot>, live: set<Key>, a: map<Key, Record>, b: map<Key, Record>,
                  ephemeral: bool, key: Key)
    requires EndsInv(terminal, live, a, ephemeral) && SameElsewhere(a, b, key, ephemeral)
    requires key in terminal ==> EndInv(key, terminal[key], b, ephemeral)
    ensures EndsInv(terminal, live, b, ephemeral)
  {
    hide EndInv;
    forall k <- terminal ensures k !in live && EndInv(k, terminal[k], b, ephemeral) {
      if k != key { EndInvElsewhere(key, k, terminal[k], a, b, ephemeral); }
    }
  }

  lemma RunIdsPut(runs: map<Key, Run>, key: Key, r: Run)
    requires key in runs && r.id == runs[key].id
    ensures RunIds(runs[key := r]) == RunIds(runs)
  {
    forall id | id in RunIds(runs) ensures id in RunIds(runs[key := r]) {
      var k :| k in runs && runs[k].id == id;
      assert k in runs[key := r] && runs[key := r][k].id == id;
    }
  }

  lemma IdsPut(runs: map<Key, Run>, log: Log, key: Key, r: Run)
    requires IdInv(runs, log) && key in runs && r.id == runs[key].id
    requires r.pending == runs[key].pending || r.pending == None
    ensures IdInv(runs[key := r], log)
  {}

  // ---- Steps that replace one run, and perhaps the record under its key ----

  lemma WithRunKeeps(s: State, key: Key, r: Run, disk: map<Key, Record>)
    requires StateInv(s) && key in s.runs && SameElsewhere(s.disk, disk, key, s.ephemeral)
    requires RunInv(key, r, disk, s.ephemeral) && r.id == s.runs[key].id
    requires r.pending == s.runs[key].pending || r.pending == None
    ensures StateInv(WithRun(s, key, r).(disk := disk))
  {
    hide RunInv, EndInv, CacheInv, ShutdownInv, SameElsewhere;
    RunsPut(s.runs, s.disk, disk, s.ephemeral, key, r);
    IdsPut(s.runs, s.log, key, r);
    RunIdsPut(s.runs, key, r);
    EndsAside(s.cache.terminal, s.runs.Keys, s.disk, disk, s.ephemeral, key);
    assert s.runs[key := r].Keys == s.runs.Keys;
  }

  lemma WithRunOnlyKeeps(s: State, key: Key, r: Run)
    requires StateInv(s) && key in s.runs && RunInv(key, r, s.disk, s.ephemeral) && r.id == s.runs[key].id
    requires r.pending == s.runs[key].pending || r.pending == None
    ensures StateInv(WithRun(s, key, r))
  {
    hide StateInv, RunInv;
    WithRunKeeps(s, key, r, s.disk);
    assert WithRun(s, key, r).(disk := s.disk) == WithRun(s, key, r);
  }

  lemma CommitRunKeeps(key: Key, r: Run, disk: map<Key, Record>, ephemeral: bool, text: string)
    requires RunInv(key, r, disk, ephemeral) && r.pc.Saving?
    ensures RunInv(key, r.(pc := Deciding(Some(r.pc.result), NoError)),
                   disk[At(ephemeral, key) := r.record.(messages := WithoutSystem(r.pc.result))], ephemeral)
    ensures RunInv(key, r.(pc := Deciding(Some(r.pc.result), SaveError(text))), disk, ephemeral)
  {}

  lemma CommitKeeps(s: State, key: Key, ok: bool, text: string)
    requires StateInv(s) && key in s.runs && s.runs[key].pc.Saving?
    ensures StateInv(Commit(s, key, ok, text))
  {
    hide RunInv, EndsInv, IdInv, ShutdownInv, CacheInv;
    var r := s.runs[key];
    CommitRunKeeps(key, r, s.disk, s.ephemeral, "persistence failed: " + text);
    if ok {
      WithRunKeeps(s, key, r.(pc := Deciding(Some(r.pc.result), NoError)),
                   s.disk[At(s.ephemeral, key) := r.record.(messages := WithoutSystem(r.pc.result))]);
    } else {
      WithRunOnlyKeeps(s, key, r.(pc := Deciding(Some(r.pc.result), SaveError("persistence failed: " + text))));
    }
  }

  /** Publishing only ever takes registrations away. */
  lemma WithFeedsKeeps(s: State, feeds: Feeds)
    requires StateInv(s) && feeds.registered <= s.feeds.registered
    ensures StateInv(s.(feeds := feeds))
  {
    hide RunsInv, EndsInv, IdInv, CacheInv;
  }

  lemma EmitKeeps(s: State, key: Key, e: Event)
    requires StateInv(s) && key in s.runs && (s.runs[key].pc.Executing? || s.runs[key].pc.Blocked?)
    requires e.sessionId == key.session && e.runId == s.runs[key].id
    ensures StateInv(Append(s, key, e))
  {
    hide StateInv, RunInv, Fits, Absorb;
    var r := s.runs[key];
    assert RunInv(key, r, s.disk, s.ephemeral) by { RunOf(s, key); }
    AppendRunKeeps(key, r, s.disk, s.ephemeral, e);
    if !r.limited {
      if Fits(r, e) {
        var r' := r.(spent := r.spent + EventBytes(e), events := Absorb(r.events, e), raw := r.raw + [e]);
        WithRunOnlyKeeps(s, key, r');
        WithFeedsKeeps(WithRun(s, key, r'), Publish(s.feeds, key, EventUpdate(e)));
      } else {
        WithRunOnlyKeeps(s, key, r.(limited := true, canceled := true));
      }
    }
  }

  lemma RunOf(s: State, key: Key)
    requires StateInv(s) && key in s.runs
    ensures RunInv(key, s.runs[key], s.disk, s.ephemeral)
  {
    hide RunInv, EndsInv, IdInv, ShutdownInv, CacheInv;
  }

  lemma InteractRunKeeps(key: Key, r: Run, disk: map<Key, Record>, ephemeral: bool, p: Pending)
    requires RunInv(key, r, disk, ephemeral) && r.pc.Executing? && !r.canceled
    requires p.sessionId == key.session && p.runId == r.id
    ensures RunInv(key, r.(phase := Waiting, pending := Some(p), mailbox := None, pc := Blocked(p)), disk, ephemeral)
  {}

  lemma IdsAsk(runs: map<Key, Run>, log: Log, key: Key, r: Run)
    requires IdInv(runs, log) && key in runs && r.id == runs[key].id
    requires r.pending.Some? && r.pending.value.id !in log.used
    ensures IdInv(runs[key := r], log.(used := log.used + {r.pending.value.id}))
  {}

  lemma InteractKeeps(s: State, key: Key, id: string, prompt: Prompt)
    requires StateInv(s) && key in s.runs && s.runs[key].pc.Executing? && id != "" && id !in s.log.used
    ensures StateInv(Interact(s, key, id, prompt))
  {
    hide RunInv, EndsInv, ShutdownInv, CacheInv, IdInv, Publish;
    var r := s.runs[key];
    if !r.canceled {
      var p := Pending(id, key.session, r.id, prompt);
      var r' := r.(phase := Waiting, pending := Some(p), mailbox := None, pc := Blocked(p));
      InteractRunKeeps(key, r, s.disk, s.ephemeral, p);
      RunsPut(s.runs, s.disk, s.disk, s.ephemeral, key, r');
      IdsAsk(s.runs, s.log, key, r');
      RunIdsPut(s.runs, key, r');
      assert s.runs[key := r'].Keys == s.runs.Keys;
      var t := WithRun(s, key, r').(log := s.log.(used := s.log.used + {id}));
      assert StateInv(t);
      WithFeedsKeeps(t, Publish(s.feeds, key, InteractionUpdate(p))) by {
        PublishOnlyRemoves(s.feeds, key, InteractionUpdate(p));
      }
    }
  }

  lemma PublishOnlyRemoves(f: Feeds, key: Key, u: Update)
    ensures Publish(f, key, u).registered <= f.registered
  {}

  lemma ReplyRunKeeps(key: Key, r: Run, disk: map<Key, Record>, ephemeral: bool, answer: Answer)
    requires RunInv(key, r, disk, ephemeral) && r.pending.Some? && !r.canceled
    requires ValidAnswer(r.pending.value.prompt, answer)
    ensures RunInv(key, r.(pending := None, phase := Running, mailbox := Some(Reply(r.pending.value.id, answer))),
                   disk, ephemeral)
  {}

  lemma IdsAnswer(runs: map<Key, Run>, log: Log, key: Key, r: Run, id: string)
    requires IdInv(runs, log) && key in runs && r.id == runs[key].id && r.pending.None?
    requires runs[key].pending.Some? && runs[key].pending.value.id == id
    ensures IdInv(runs[key := r], log.(answered := log.answered + {id}))
  {}

  /** Both halves of an accepted reply at once. */
  lemma AnsweredParts(s: State, key: Key, runId: string, id: string, answer: Answer)
    requires Answered(s, key, runId, id, answer).1.Ok?
    ensures var r := s.runs[key];
            var r' := r.(pending := None, phase := Running, mailbox := Some(Reply(id, answer)));
            Answered(s, key, runId, id, answer).0 ==
            WithRun(s, key, r').(feeds := Publish(s.feeds, key, ResolvedUpdate(r.pending.value)),
                                 log := s.log.(answered := s.log.answered + {id}))
  {
    hide Publish;
    var r := s.runs[key];
    var t := Resolve(s, key);
    assert t.runs[key := t.runs[key].(mailbox := Some(Reply(id, answer)))]
           == s.runs[key := r.(pending := None, phase := Running, mailbox := Some(Reply(id, answer)))];
  }

  /** The run and the log after a reply, before anything is published. */
  lemma AnswerKeeps(s: State, key: Key, id: string, answer: Answer)
    requires StateInv(s) && key in s.runs && s.runs[key].pending.Some? && !s.runs[key].canceled
    requires s.runs[key].pending.value.id == id && ValidAnswer(s.runs[key].pending.value.prompt, answer)
    ensures StateInv(WithRun(s, key, s.runs[key].(pending := None, phase := Running,
                                                  mailbox := Some(Reply(id, answer))))
                       .(log := s.log.(answered := s.log.answered + {id})))
  {
    hide RunInv, EndsInv, ShutdownInv, CacheInv, IdInv;
    var r := s.runs[key];
    var r' := r.(pending := None, phase := Running, mailbox := Some(Reply(id, answer)));
    ReplyRunKeeps(key, r, s.disk, s.ephemeral, answer);
    RunsPut(s.runs, s.disk, s.disk, s.ephemeral, key, r');
    IdsAnswer(s.runs, s.log, key, r', id);
    RunIdsPut(s.runs, key, r');
    assert s.runs[key := r'].Keys == s.runs.Keys;
  }

  lemma ReplyKeeps(s: State, key: Key, runId: string, id: string, answer: Answer)
    requires StateInv(s)
    ensures StateInv(Answered(s, key, runId, id, answer).0)
  {
    hide StateInv, Publish, Resolve, HandOver;
    if Answered(s, key, runId, id, answer).1.Ok? {
      var r := s.runs[key];
      var u := ResolvedUpdate(r.pending.value);
      AnswerKeeps(s, key, id, answer);
      PublishOnlyRemoves(s.feeds, key, u);
      AnsweredParts(s, key, runId, id, answer);
      var t := WithRun(s, key, r.(pending := None, phase := Running, mailbox := Some(Reply(id, answer))))
        .(log := s.log.(answered := s.log.answered + {id}));
      WithFeedsKeeps(t, Publish(s.feeds, key, u));
    }
  }

  // ---- Reservation ----

  lemma DropEndsKeeps(s: State, key: Key)
    requires StateInv(s)
    ensures StateInv(s.(cache := Drop(s.cache, key)))
  {
    hide RunsInv, EndInv, IdInv, ShutdownInv, CacheInv, Without;
    DropKeeps(s.cache, key);
  }

  lemma WithDiskKeeps(s: State, key: Key, disk: map<Key, Record>)
    requires StateInv(s) && key !in s.runs && SameElsewhere(s.disk, disk, key, s.ephemeral)
    requires key in s.cache.terminal ==> EndInv(key, s.cache.terminal[key], disk, s.ephemeral)
    ensures StateInv(s.(disk := disk))
  {
    hide RunsInv, EndsInv, EndInv, IdInv, ShutdownInv, CacheInv, SameElsewhere;
    RunsAside(s.runs, s.disk, disk, s.ephemeral, key);
    EndsAside(s.cache.terminal, s.runs.Keys, s.disk, disk, s.ephemeral, key);
  }

  lemma NewRecordKeeps(s: State, key: Key, record: Record)
    requires StateInv(s) && key !in s.runs && At(s.ephemeral, key) !in s.disk
    ensures StateInv(s.(disk := s.disk[At(s.ephemeral, key) := record]))
  {
    hide RunsInv, IdInv, ShutdownInv, CacheInv;
    WithDiskKeeps(s, key, s.disk[At(s.ephemeral, key) := record]);
  }

  lemma WithStoresKeeps(s: State, stores: set<string>)
    requires StateInv(s)
    ensures StateInv(s.(stores := stores))
  {
    hide RunsInv, EndsInv, IdInv, ShutdownInv, CacheInv;
  }

  lemma NewRunHolds(key: Key, runId: string, record: Record, incoming: seq<Message>, disk: map<Key, Record>,
                    ephemeral: bool)
    requires runId != "" && (!ephemeral ==> key in disk && disk[key] == record)
    requires MessagesBytes(HistoryFrom(record.messages) + incoming) <= MAX_PROJECTION_BYTES
    ensures RunInv(key, NewRun(key, runId, record, HistoryFrom(record.messages) + incoming), disk, ephemeral)
  {
    SubsequenceRefl(HistoryFrom(record.messages));
    SubsequenceAppend(HistoryFrom(record.messages), HistoryFrom(record.messages), incoming);
  }

  lemma IdsAdmit(runs: map<Key, Run>, log: Log, key: Key, r: Run)
    requires IdInv(runs, log) && key !in runs && key.session != "" && r.id !in log.used && r.pending.None?
    ensures IdInv(runs[key := r], log.(used := log.used + {r.id}))
  {}

  lemma AdmitKeeps(s: State, key: Key, run: Run)
    requires StateInv(s) && key !in s.runs && !s.stopped && key.session != ""
    requires run.id !in s.log.used && run.pending.None? && RunInv(key, run, s.disk, s.ephemeral)
    ensures StateInv(Admit(s, key, run))
  {
    hide RunInv, EndInv, CacheInv, IdInv, Publish, RunSnapshot, Drop;
    RunsPut(s.runs, s.disk, s.disk, s.ephemeral, key, run);
    IdsAdmit(s.runs, s.log, key, run);
    var c := Drop(s.cache, key);
    assert CacheInv(c) && c.terminal == s.cache.terminal - {key} by {
      DropKeeps(s.cache, key);
      DropTerminal(s.cache, key);
    }
    var t := s.(cache := c, runs := s.runs[key := run], log := s.log.(used := s.log.used + {run.id}));
    assert StateInv(t);
    var u := SnapshotUpdate("", RunSnapshot(key, run));
    WithFeedsKeeps(t, Publish(s.feeds, key, u)) by { PublishOnlyRemoves(s.feeds, key, u); }
    assert Admit(s, key, run) == t.(feeds := Publish(s.feeds, key, u));
  }

  lemma DropTerminal(c: Cache, key: Key)
    ensures Drop(c, key).terminal == c.terminal - {key}
  {}

  lemma ReserveKeeps(s: State, key: Key, incoming: seq<Message>, runId: string, title: string, io: Io)
    requires StateInv(s) && key.session != "" && runId != "" && runId !in s.log.used
    ensures StateInv(Reserve(s, key, incoming, runId, title, io).0)
  {
    hide StateInv, RunInv, Admit, NewRun, HistoryFrom, MessagesBytes;
    if incoming != [] && !s.stopped && key !in s.runs {
      var o := s.(stores := OpenStore(s, key.workspace));
      WithStoresKeeps(s, OpenStore(s, key.workspace));
      var at := At(s.ephemeral, key);
      if io.leaseOk && io.loadOk && (at in s.disk || io.writeOk) {
        var d := if at in o.disk then o else o.(disk := o.disk[at := Record(key.session, title, [])]);
        if at !in o.disk { NewRecordKeeps(o, key, Record(key.session, title, [])); }
        var messages := HistoryFrom(d.disk[at].messages) + incoming;
        if MessagesBytes(messages) <= MAX_PROJECTION_BYTES {
          var run := NewRun(key, runId, d.disk[at], messages);
          NewRunHolds(key, runId, d.disk[at], incoming, d.disk, d.ephemeral);
          assert run.id == runId && run.pending.None? by { NewRunFields(key, runId, d.disk[at], messages); }
          AdmitKeeps(d, key, run);
        }
      }
    }
  }

  lemma NewRunFields(key: Key, runId: string, record: Record, messages: seq<Message>)
    ensures NewRun(key, runId, record, messages).id == runId && NewRun(key, runId, record, messages).pending.None?
  {}

  // ---- The end of a run ----

  lemma FinalSnapshotIsEnd(key: Key, r: Run, disk: map<Key, Record>, ephemeral: bool)
    requires RunInv(key, r, disk, ephemeral) && r.pc.Finishing?
    ensures EndInv(key, Stripped(FinalSnapshot(key, r)), disk, ephemeral)
  {}

  lemma EndsRetain(c: Cache, live: set<Key>, disk: map<Key, Record>, ephemeral: bool, key: Key, snap: Snapshot)
    requires CacheInv(c) && EndsInv(c.terminal, live, disk, ephemeral) && EndInv(key, Stripped(snap), disk, ephemeral)
    ensures EndsInv(Retain(c, key, snap).terminal, live - {key}, disk, ephemeral)
  {
    hide EndInv, CacheInv, Retain, Stripped;
    RetainKeeps(c, key, snap);
  }

  lemma IdsFinish(runs: map<Key, Run>, log: Log, key: Key)
    requires IdInv(runs, log) && key in runs
    ensures IdInv(runs - {key}, log.(ended := log.ended + {runs[key].id}))
  {}

  lemma RunsFinish(runs: map<Key, Run>, disk: map<Key, Record>, ephemeral: bool, key: Key)
    requires RunsInv(runs, disk, ephemeral)
    ensures RunsInv(runs - {key}, disk, ephemeral)
  {
    hide RunInv;
  }

  lemma ShutdownFewer(shutdowns: map<nat, ShutdownPc>, stopped: bool, a: set<string>, b: set<string>, lists: nat,
                      registered: set<nat>, fewer: set<nat>)
    requires ShutdownInv(shutdowns, stopped, a, lists, registered) && b <= a && fewer <= registered
    ensures ShutdownInv(shutdowns, stopped, b, lists, fewer)
  {}

  lemma FinishKeeps(s: State, key: Key)
    requires StateInv(s) && key in s.runs && s.runs[key].pc.Finishing?
    ensures StateInv(Finish(s, key))
  {
    hide RunInv, EndInv, EndsInv, CacheInv, IdInv, ShutdownInv, Publish, Retain, Stripped, FinalSnapshot;
    var r := s.runs[key];
    FinalSnapshotIsEnd(key, r, s.disk, s.ephemeral);
    EndsRetain(s.cache, s.runs.Keys, s.disk, s.ephemeral, key, FinalSnapshot(key, r));
    RetainKeeps(s.cache, key, FinalSnapshot(key, r));
    IdsFinish(s.runs, s.log, key);
    RunsFinish(s.runs, s.disk, s.ephemeral, key);
    PublishOnlyRemoves(s.feeds, key, OutcomeUpdate(r.pc.verdict));
    var t := Finish(s, key);
    assert t.runs.Keys == s.runs.Keys - {key};
    ShutdownFewer(s.shutdowns, s.stopped, RunIds(s.runs), RunIds(t.runs), s.lists, s.feeds.registered,
                  t.feeds.registered);
  }

  // ---- Mutations ----

  lemma RenameKeepsEnd(key: Key, snap: Snapshot, disk: map<Key, Record>, ephemeral: bool, title: string)
    requires EndInv(key, snap, disk, ephemeral) && At(ephemeral, key) in disk
    ensures EndInv(key, snap, disk[At(ephemeral, key) := disk[At(ephemeral, key)].(title := title)], ephemeral)
  {}

  lemma DroppedThenDisk(s: State, key: Key, disk: map<Key, Record>)
    requires StateInv(s) && key !in s.runs && SameElsewhere(s.disk, disk, key, s.ephemeral)
    ensures StateInv(s.(cache := Drop(s.cache, key), disk := disk))
  {
    hide StateInv, EndInv, SameElsewhere;
    DropEndsKeeps(s, key);
    WithDiskKeeps(s.(cache := Drop(s.cache, key)), key, disk);
  }

  lemma MutateKeeps(s: State, key: Key, m: Mutation, io: Io)
    requires StateInv(s)
    ensures StateInv(Mutate(s, key, m, io).0)
  {
    hide RunsInv, IdInv, ShutdownInv, CacheInv, EndInv, Drop;
    if !s.stopped && key !in s.runs {
      var o := s.(stores := OpenStore(s, key.workspace));
      WithStoresKeeps(s, OpenStore(s, key.workspace));
      if Mutate(s, key, m, io).1.Ok? {
        var at := At(s.ephemeral, key);
        match m {
          case Create(title) => DroppedThenDisk(o, key, s.disk[at := Record(key.session, title, [])]);
          case Delete => DroppedThenDisk(o, key, s.disk - {at});
          case Rename(title) =>
            if key in s.cache.terminal { RenameKeepsEnd(key, s.cache.terminal[key], s.disk, s.ephemeral, title); }
            WithDiskKeeps(o, key, s.disk[at := s.disk[at].(title := title)]);
        }
      }
    }
  }

  // ---- Shutdown ----

  lemma RunsCancelAll(runs: map<Key, Run>, disk: map<Key, Record>, ephemeral: bool)
    requires RunsInv(runs, disk, ephemeral)
    ensures RunsInv(CancelAll(runs), disk, ephemeral)
  {
    hide RunInv;
    forall k <- CancelAll(runs) ensures RunInv(k, CancelAll(runs)[k], disk, ephemeral) {
      if !runs[k].phase.Persisting? { CancelKeeps(k, runs[k], disk, ephemeral); }
    }
  }

  lemma IdsCancelAll(runs: map<Key, Run>, log: Log)
    requires IdInv(runs, log)
    ensures IdInv(CancelAll(runs), log) && RunIds(CancelAll(runs)) == RunIds(runs) && CancelAll(runs).Keys == runs.Keys
  {
    var c := CancelAll(runs);
    assert forall k <- runs :: k in c && c[k].id == runs[k].id && c[k].pending == runs[k].pending;
    assert c.Keys == runs.Keys;
    forall id | id in RunIds(runs) ensures id in RunIds(c) {
      var k :| k in runs && runs[k].id == id;
      assert k in c && c[k].id == id;
    }
    forall id | id in RunIds(c) ensures id in RunIds(runs) {
      var k :| k in c && c[k].id == id;
      assert k in runs && runs[k].id == id;
    }
  }

  lemma ShutdownBeginKeeps(s: State, caller: nat)
    requires StateInv(s) && caller !in s.shutdowns
    ensures StateInv(ShutdownBegin(s, caller))
  {
    hide RunsInv, EndsInv, IdInv, CacheInv, CancelAll;
    RunsCancelAll(s.runs, s.disk, s.ephemeral);
    IdsCancelAll(s.runs, s.log);
  }

  lemma WithCallerKeeps(s: State, caller: nat, pc: ShutdownPc)
    requires StateInv(s) && caller in s.shutdowns
    requires CallerInv(pc, RunIds(s.runs), s.lists, s.feeds.registered)
    ensures StateInv(s.(shutdowns := s.shutdowns[caller := pc]))
  {
    hide RunsInv, EndsInv, IdInv, CacheInv, CallerInv;
  }

  lemma EndedIsNotActive(runs: map<Key, Run>, log: Log, id: string)
    requires IdInv(runs, log) && id in log.ended
    ensures id !in RunIds(runs)
  {}

  lemma ShutdownStepKeeps(s: State, a: Action)
    requires StateInv(s) && Enabled(s, a)
    requires a.DoShutdownRun? || a.DoShutdownLists? || a.DoShutdownTimeout? || a.DoShutdownClose?
    ensures StateInv(Perform(s, a))
  {
    hide RunsInv, EndsInv, CacheInv, CloseAll, IdInv, RunIds;
    var pc := s.shutdowns[a.caller];
    assert s.stopped && CallerInv(pc, RunIds(s.runs), s.lists, s.feeds.registered);
    var ids := RunIds(s.runs);
    if a.DoShutdownRun? {
      if a.runId in s.log.ended {
        EndedIsNotActive(s.runs, s.log, a.runId);
        WithCallerKeeps(s, a.caller, Draining(pc.runs - {a.runId}));
      }
    } else if a.DoShutdownLists? {
      if pc.Draining? && pc.runs == {} { WithCallerKeeps(s, a.caller, Listing); }
      else if pc.Listing? && s.lists == 0 { WithCallerKeeps(s, a.caller, Closing); }
    } else if a.DoShutdownTimeout? {
      if pc.Draining? || pc.Listing? { WithCallerKeeps(s, a.caller, TimedOut); }
    } else {
      assert CloseAll(s.feeds).registered == {} by { CloseAllEmpties(s.feeds); }
      WithFeedsKeeps(s, CloseAll(s.feeds));
      WithStoresKeeps(s.(feeds := CloseAll(s.feeds)), {});
      WithCallerKeeps(s.(feeds := CloseAll(s.feeds), stores := {}), a.caller, Drained);
    }
  }

  lemma CloseAllEmpties(f: Feeds)
    ensures CloseAll(f).registered == {}
  {}

  // ---- Subscribers, listings, the remaining run steps ----

  lemma WithListsKeeps(s: State, lists: nat)
    requires StateInv(s) && (lists <= s.lists || !s.stopped)
    ensures StateInv(s.(lists := lists))
  {
    hide RunsInv, EndsInv, IdInv, CacheInv;
  }

  /** A live engine may register anybody; a stopped one registers nobody. */
  lemma WithNewFeedsKeeps(s: State, feeds: Feeds)
    requires StateInv(s) && !s.stopped
    ensures StateInv(s.(feeds := feeds))
  {
    hide RunsInv, EndsInv, IdInv, CacheInv;
  }

  lemma LookupKeeps(s: State, key: Key, io: Io)
    requires StateInv(s)
    ensures StateInv(CurrentSnapshot(s, key, io).0)
    ensures CurrentSnapshot(s, key, io).0.feeds == s.feeds && CurrentSnapshot(s, key, io).0.stopped == s.stopped
  {
    hide StateInv, RunSnapshot;
    WithStoresKeeps(s, OpenStore(s, key.workspace));
  }

  lemma OfferOnlyRemoves(f: Feeds, id: nat, u: Update)
    requires id in f.subs
    ensures Offer(f, id, u).0.registered <= f.registered
  {}

  lemma SubscriberStepKeeps(s: State, a: Action)
    requires StateInv(s) && Enabled(s, a)
    requires a.DoSubscribe? || a.DoResnapshot? || a.DoUnsubscribe? || a.DoReader? || a.DoSnapshot?
             || a.DoListBegin? || a.DoListEnd?
    ensures StateInv(Perform(s, a))
  {
    hide StateInv, CurrentSnapshot, AddSub, Offer, ReaderStep, Unsubscribe;
    if a.DoSubscribe? {
      if !s.stopped {
        var (t, snap) := CurrentSnapshot(s, a.key, a.io);
        LookupKeeps(s, a.key, a.io);
        if snap.Ok? { WithNewFeedsKeeps(t, AddSub(t.feeds, a.sub, a.key, SnapshotUpdate(a.requestId, snap.value)).0); }
      }
    } else if a.DoResnapshot? {
      if a.sub in s.feeds.registered && a.sub in s.feeds.subs {
        var key := s.feeds.subs[a.sub].key;
        var (t, snap) := CurrentSnapshot(s, key, a.io);
        LookupKeeps(s, key, a.io);
        if snap.Ok? {
          var u := SnapshotUpdate(a.requestId, snap.value);
          OfferOnlyRemoves(t.feeds, a.sub, u);
          WithFeedsKeeps(t, Offer(t.feeds, a.sub, u).0);
        }
      }
    } else if a.DoUnsubscribe? {
      WithFeedsKeeps(s, Unsubscribe(s.feeds, a.sub)) by { FeedStepsOnlyRemove(s.feeds, a.sub, true); }
    } else if a.DoReader? {
      WithFeedsKeeps(s, ReaderStep(s.feeds, a.sub, a.receive)) by { FeedStepsOnlyRemove(s.feeds, a.sub, a.receive); }
    } else if a.DoSnapshot? {
      LookupKeeps(s, a.key, a.io);
    } else if a.DoListBegin? {
      if !s.stopped {
        WithStoresKeeps(s, OpenStore(s, a.workspace));
        WithListsKeeps(s.(stores := OpenStore(s, a.workspace)), s.lists + 1);
      }
    } else {
      WithListsKeeps(s, s.lists - 1);
    }
  }

  lemma FeedStepsOnlyRemove(f: Feeds, id: nat, receive: bool)
    ensures Unsubscribe(f, id).registered <= f.registered && ReaderStep(f, id, receive).registered <= f.registered
  {}

  predicate IsRunStep(a: Action) {
    a.DoCreateRunner? || a.DoWake? || a.DoReturn? || a.DoCheckContext? || a.DoEnterPersist? || a.DoReadFlags?
    || a.DoJudge?
  }

  /** What a step of the run's own goroutine makes of the run. */
  function RunAfter(s: State, a: Action): Run
    requires Enabled(s, a) && IsRunStep(a)
  {
    var r := s.runs[a.key];
    match a
    case DoCreateRunner(key, ok, text) => CreateRunner(key, r, ok, text)
    case DoWake(key, byCancel) => Wake(r, byCancel)
    case DoReturn(key, result, failure) => RunnerReturns(r, result, failure)
    case DoCheckContext(key) => CheckContext(r, s.ephemeral)
    case DoEnterPersist(key) => EnterPersist(r)
    case DoReadFlags(key) => ReadFlags(r)
    case DoJudge(key) => Judge(key, r, s.ephemeral)
  }

  lemma RunAfterKeeps(s: State, a: Action)
    requires Enabled(s, a) && IsRunStep(a) && RunInv(a.key, s.runs[a.key], s.disk, s.ephemeral)
    ensures RunInv(a.key, RunAfter(s, a), s.disk, s.ephemeral)
  {
    hide RunInv, CreateRunner, Wake, RunnerReturns, CheckContext, EnterPersist, ReadFlags, Judge;
    var r, d, e := s.runs[a.key], s.disk, s.ephemeral;
    if a.DoCreateRunner? { CreateRunnerKeeps(a.key, r, d, e, a.ok, a.text); }
    else if a.DoWake? { WakeKeeps(a.key, r, d, e, a.byCancel); }
    else if a.DoReturn? { ReturnKeeps(a.key, r, d, e, a.result, a.failure); }
    else if a.DoCheckContext? { CheckContextKeeps(a.key, r, d, e); }
    else if a.DoEnterPersist? { EnterPersistKeeps(a.key, r, d, e); }
    else if a.DoReadFlags? { ReadFlagsKeeps(a.key, r, d, e); }
    else { JudgeKeeps(a.key, r, d, e); }
  }

  lemma RunAfterSameFace(s: State, a: Action)
    requires Enabled(s, a) && IsRunStep(a)
    ensures var r, t := s.runs[a.key], RunAfter(s, a);
            t.id == r.id && t.pending == r.pending && t.messages == r.messages && t.events == r.events
    ensures Perform(s, a) == WithRun(s, a.key, RunAfter(s, a))
  {
    hide Verdict;
    if a.DoCreateRunner? { } else if a.DoWake? { } else if a.DoReturn? { } else if a.DoCheckContext? { }
    else if a.DoEnterPersist? { } else if a.DoReadFlags? { } else { }
  }

  lemma RunStepKeeps(s: State, a: Action)
    requires StateInv(s) && Enabled(s, a) && IsRunStep(a)
    ensures StateInv(Perform(s, a))
  {
    hide StateInv, RunInv, Perform, RunAfter;
    RunOf(s, a.key);
    RunAfterKeeps(s, a);
    RunAfterSameFace(s, a);
    WithRunOnlyKeeps(s, a.key, RunAfter(s, a));
  }

  lemma CancelStepKeeps(s: State, key: Key, runId: string)
    requires StateInv(s)
    ensures StateInv(Cancel(s, key, runId).0)
  {
    hide StateInv, RunInv;
    if key in s.runs && runId == s.runs[key].id && !s.runs[key].phase.Persisting? {
      RunOf(s, key);
      CancelKeeps(key, s.runs[key], s.disk, s.ephemeral);
      WithRunOnlyKeeps(s, key, s.runs[key].(canceled := true));
    }
  }

  lemma StepKeepsState(s: State, a: Action)
    requires StateInv(s) && Enabled(s, a)
    ensures StateInv(Perform(s, a))
  {
    hide StateInv, Reserve, Append, Interact, Answered, Commit, Finish, Cancel, Mutate, ShutdownBegin,
      Subscribe, Resnapshot, CurrentSnapshot, ListBegin, ShutdownRun, ShutdownLists, ShutdownTimeout, ShutdownClose;
    if a.DoReserve? { ReserveKeeps(s, a.key, a.incoming, a.runId, a.title, a.io); }
    else if a.DoEmit? { EmitKeeps(s, a.key, Stamped(a.key, s.runs[a.key], a.event)); }
    else if a.DoInteract? { InteractKeeps(s, a.key, a.id, a.prompt); }
    else if a.DoReply? { ReplyKeeps(s, a.key, a.runId, a.id, a.answer); }
    else if a.DoCommit? { CommitKeeps(s, a.key, a.ok, a.text); }
    else if a.DoFinish? { FinishKeeps(s, a.key); }
    else if a.DoCancel? { CancelStepKeeps(s, a.key, a.runId); }
    else if a.DoMutate? { MutateKeeps(s, a.key, a.mutation, a.io); }
    else if a.DoShutdownBegin? { ShutdownBeginKeeps(s, a.caller); }
    else if a.DoShutdownRun? || a.DoShutdownLists? || a.DoShutdownTimeout? || a.DoShutdownClose? {
      ShutdownStepKeeps(s, a);
    }
    else if a.DoSubscribe? || a.DoResnapshot? || a.DoUnsubscribe? || a.DoReader? || a.DoSnapshot?
            || a.DoListBegin? || a.DoListEnd? { SubscriberStepKeeps(s, a); }
    else { RunStepKeeps(s, a); }
  }

  /** The invariant holds after every sequence of steps. */
  lemma {:induction false} ReachableState(ephemeral: bool, actions: seq<Action>)
    ensures StateInv(Reach(Initial(ephemeral), actions))
  {
    if actions == [] {
      InitialHolds(ephemeral);
    } else {
      hide StateInv, Perform, Enabled;
      ReachableState(ephemeral, actions[..|actions| - 1]);
      var s := Reach(Initial(ephemeral), actions[..|actions| - 1]);
      if Enabled(s, actions[|actions| - 1]) { StepKeepsState(s, actions[|actions| - 1]); }
    }
  }
}

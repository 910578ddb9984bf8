/** The stateful side of dbmail/signals.py: the receiver object, the keyword-argument dict it
    shares under two names, and the outside world it writes to. `SendMail`, `RunSignal`, `Run`
    and `RunDeferred` are proved against the matching effect functions of module Signals; the
    `Dict` and `Backend` methods and `GetCurrentInstance` state their new state directly. */
module Receiver {
  import opened Signals

  /** A Python dict, shared by reference. */
  class Dict {
    var entries: Context

    constructor(entries: Context)
      ensures this.entries == entries
    {
      this.entries := entries;
    }

    /** `d.pop(key, None)`. */
    method Pop(key: string) returns (v: Value)
      modifies this
      ensures v == if key in old(entries) then old(entries)[key] else NoneValue
      ensures entries == old(entries) - {key}
    {
      v := if key in entries then entries[key] else NoneValue;
      entries := entries - {key};
    }

    /** `d[key] = v`. */
    method Set(key: string, v: Value)
      modifies this
      ensures entries == old(entries)[key := v]
    {
      entries := entries[key := v];
    }
  }

  /** The database and the task queue as the receiver sees them: the `Signal` table, the
      template engine, the sent markers and a log of mails and enqueued tasks. */
  class Backend {
    const signals: seq<Signal>
    const render: Renderer
    var sent: set<SentKey>
    var log: seq<Effect>

    constructor(signals: seq<Signal>, render: Renderer)
      ensures this.signals == signals && this.render == render
      ensures sent == {} && log == []
    {
      this.signals := signals;
      this.render := render;
      sent := {};
      log := [];
    }

    function State(): Outbox
      reads this
    {
      Outbox(sent, log)
    }

    /** `signal.is_sent(pk)`. */
    predicate IsSent(key: SentKey)
      reads this
    {
      key in sent
    }

    /** `signal.mark_as_sent(pk)`. */
    method MarkAsSent(key: SentKey)
      modifies this
      ensures sent == old(sent) + {key} && log == old(log)
    {
      sent := sent + {key};
    }

    /** `send_db_mail(...)` or `apply_async(...)`: the call is recorded, nothing else changes. */
    method Emit(e: Effect)
      modifies this
      ensures log == old(log) + [e] && sent == old(sent)
    {
      log := log + [e];
    }
  }

  class SignalReceiver {
    const sender: string
    const kwargs: Dict
    const privateKwargs: Dict      // `_kwargs`: bound to the very dict `kwargs` is
    const instance: Option<Record>
    const pk: Option<int>
    const signalPk: Option<int>
    const backend: Backend
    var signal: Option<Signal>
    ghost var dispatched: seq<Signal>   // the signals `_run` has been called for, in order

    ghost predicate Valid() {
      kwargs == privateKwargs && pk == PkOf(instance)
    }

    function View(): Origin {
      Origin(sender, instance, pk, signalPk)
    }

    /** `__init__`; `stored` is what `sender.objects.get(pk=instance.pk)` finds and `users`
        what `get_users()` returns. */
    constructor(sender: string, kw: Context, backend: Backend,
                stored: Option<Record>, users: Value, today: int, now: int)
      ensures Valid() && fresh(kwargs)
      ensures View() == OriginOf(sender, kw) && this.backend == backend
      ensures kwargs.entries == InitialContext(kw, stored, users, today, now)
      ensures signal == None && dispatched == []
    {
      var d := new Dict(kw);
      this.sender := sender;
      this.backend := backend;
      kwargs := d;
      privateKwargs := d;
      instance := InstanceOf(kw);
      pk := PkOf(InstanceOf(kw));
      signal := None;
      dispatched := [];
      var popped := d.Pop("signal_pk");
      signalPk := if popped.Int? then Some(popped.i) else None;
      d.Set("old_instance", OldInstance(PkOf(InstanceOf(kw)), stored));
      d.Set("users", users);
      d.Set("date", Date(today));
      d.Set("date_time", DateTime(now));
    }

    /** `get_current_instance`; `current` is what `_default_manager.get(pk=...)` finds. */
    method GetCurrentInstance(current: Option<Record>)
      requires Valid()
      modifies kwargs
      ensures kwargs.entries == if pk.Some? && current.Some?
                                then old(kwargs.entries)["current_instance" := Instance(current.value)]
                                else old(kwargs.entries)
    {
      if pk.Some? && current.Some? {
        kwargs.Set("current_instance", Instance(current.value));
      }
    }

    /** `send_mail`. */
    method SendMail()
      requires Valid() && signal.Some?
      modifies backend
      ensures backend.State() == SendMailEffect(View(), signal.value, backend.render, kwargs.entries, old(backend.State()))
    {
      var s := signal.value;
      var emails := GetEmailList(s, backend.render, kwargs.entries);
      var key := (s.pk, pk);
      if emails != [] && !backend.IsSent(key) {
        backend.Emit(Send(key, s.template, emails, kwargs.entries, instance, GetInterval(s, signalPk)));
        backend.MarkAsSent(key);
      }
    }

    /** `_run`: the write to `_kwargs` is seen through `kwargs`. */
    method RunSignal()
      requires Valid() && signal.Some?
      modifies this, kwargs, backend
      ensures Valid() && signal == old(signal)
      ensures dispatched == old(dispatched) + [signal.value]
      ensures World(kwargs.entries, backend.State())
              == RunSignalEffect(View(), signal.value, backend.render, World(old(kwargs.entries), old(backend.State())))
    {
      var s := signal.value;
      if s.interval != 0 && s.updateModel {
        privateKwargs.Set("signal_pk", Int(s.pk));
        backend.Emit(Deferred(sender, privateKwargs.entries, s.interval));
      } else {
        SendMail();
      }
      dispatched := dispatched + [s];
    }

    /** `run`: `_run` once per active signal of the sender's model, in query order; the loop
        variable is the `signal` field, which keeps the last signal afterwards. */
    method Run()
      requires Valid()
      modifies this, kwargs, backend
      ensures Valid()
      ensures var signals := ActiveSignalsFor(backend.signals, sender);
              && dispatched == old(dispatched) + signals
              && signal == (if signals == [] then old(signal) else Some(signals[|signals| - 1]))
              && World(kwargs.entries, backend.State())
                 == RunEffect(View(), signals, backend.render, World(old(kwargs.entries), old(backend.State())))
    {
      var signals := ActiveSignalsFor(backend.signals, sender);
      ghost var w0 := World(kwargs.entries, backend.State());
      var i := 0;
      while i < |signals|
        invariant 0 <= i <= |signals|
        invariant Valid()
        invariant dispatched == old(dispatched) + signals[..i]
        invariant signal == if i == 0 then old(signal) else Some(signals[i - 1])
        invariant World(kwargs.entries, backend.State()) == RunEffect(View(), signals[..i], backend.render, w0)
      {
        signal := Some(signals[i]);
        RunSignal();
        assert signals[..i + 1][..i] == signals[..i];
        i := i + 1;
      }
      assert signals[..i] == signals;
    }

    /** `run_deferred`; `current` is what `get_current_instance` finds. */
    method RunDeferred(current: Option<Record>)
      requires Valid()
      modifies this, kwargs, backend
      ensures Valid() && dispatched == old(dispatched)
      ensures var found := FindActive(backend.signals, signalPk);
              signal == if found.Some? then found else old(signal)
      ensures World(kwargs.entries, backend.State())
              == RunDeferredEffect(View(), backend.signals, backend.render,
                                   World(old(kwargs.entries), old(backend.State())), current)
    {
      var found := FindActive(backend.signals, signalPk);
      if found.Some? {
        signal := found;
        GetCurrentInstance(current);
        SendMail();
      }
    }
  }

  /** `signal_receiver`: drop `signal`, then hand the event to the queue when the task queue
      is in use, or build a receiver and run it in place. The inputs after `celerySupported`
      are what the receiver's construction looks up. */
  method Receive(sender: string, kw: Context, celerySupported: bool, backend: Backend,
                 stored: Option<Record>, enableUsers: bool, directory: seq<User>, today: int, now: int)
    modifies backend
    ensures var k := WithoutSignal(kw);
            backend.State() ==
              if celerySupported then Outbox(old(backend.sent), old(backend.log) + [Received(sender, k)])
              else RunEffect(OriginOf(sender, k), ActiveSignalsFor(backend.signals, sender), backend.render,
                             World(InitialContext(k, stored, GetUsers(enableUsers, directory), today, now),
                                   old(backend.State()))).outbox
    ensures OnceOnly(old(backend.State())) ==> OnceOnly(backend.State())
  {
    var k := kw;
    if "signal" in k {
      k := k - {"signal"};
    }
    assert k == WithoutSignal(kw);
    if celerySupported {
      backend.Emit(Received(sender, k));
    } else {
      ghost var before := backend.State();
      var receiver := new SignalReceiver(sender, k, backend, stored, GetUsers(enableUsers, directory), today, now);
      receiver.Run();
      if OnceOnly(before) {
        RunKeepsOnceOnly(receiver.View(), ActiveSignalsFor(backend.signals, sender), backend.render,
                         World(InitialContext(k, stored, GetUsers(enableUsers, directory), today, now), before));
      }
    }
  }
}

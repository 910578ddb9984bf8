/** The dispatch decisions of `SignalReceiver` (dbmail/signals.py) as values and functions.

    The surroundings are inputs: the `Signal` table is a sequence in query order, the
    recipient template engine is a function `Renderer`, every ORM lookup is an `Option`
    (None for "does not exist"), and the outside world (sent markers, mails handed to
    `send_db_mail`, tasks handed to the queue) is an `Outbox` value. */
module Signals {
  import opened Text

  datatype Option<T> = None | Some(value: T)

  /** A model instance; only its primary key matters here (None while unsaved). */
  datatype Record = Record(pk: Option<int>)

  datatype User = User(id: int, isActive: bool, isStaff: bool, isSuperuser: bool)

  /** A value held in the receiver's keyword-argument dict, which is also the template context. */
  datatype Value =
    | NoneValue
    | Instance(record: Record)
    | Int(i: int)
    | Bool(b: bool)
    | Str(s: string)
    | Users(users: seq<User>)
    | Date(day: int)
    | DateTime(stamp: int)

  type Context = map<string, Value>

  /** The template engine: `Template(rules).render(Context(context))`. */
  type Renderer = (string, Context) -> string

  /** A notification rule (a row of the `Signal` model); the dispatcher only reads it. */
  datatype Signal = Signal(
    pk: int,
    model: string,           // module name of the model it watches
    isActive: bool,
    group: Option<string>,   // slug of the fixed recipient group, if one is set
    rules: string,           // recipient-list template
    interval: int,
    updateModel: bool,
    template: string)        // slug of the mail template

  /** What `is_sent` / `mark_as_sent` are keyed on: the signal and the instance pk. */
  type SentKey = (int, Option<int>)

  datatype Effect =
    | Send(key: SentKey, template: string, recipients: string, context: Context,
           instance: Option<Record>, options: map<string, int>)   // send_db_mail(...)
    | Deferred(sender: string, kwargs: Context, countdown: int)   // tasks.deferred_signal
    | Received(sender: string, kwargs: Context)                   // tasks.signal_receiver

  /** The sent markers and, in order, everything handed to the mailer or the task queue. */
  datatype Outbox = Outbox(sent: set<SentKey>, log: seq<Effect>)

  /** The receiver's dict together with the outside world. */
  datatype World = World(context: Context, outbox: Outbox)

  /** The fields a receiver fixes at construction and never reassigns. */
  datatype Origin = Origin(sender: string, instance: Option<Record>, pk: Option<int>, signalPk: Option<int>)

  /** Python truthiness of an integer that may be None. */
  predicate IntTruthy(v: Option<int>) {
    v.Some? && v.value != 0
  }

  // ---------------------------------------------------------------- construction

  /** `kwargs.get('instance')`. */
  function InstanceOf(kw: Context): (r: Option<Record>)
    ensures r.Some? <==> "instance" in kw && kw["instance"].Instance?
    ensures r.Some? ==> kw["instance"] == Instance(r.value)
  {
    if "instance" in kw && kw["instance"].Instance? then Some(kw["instance"].record) else None
  }

  /** `self.instance and self.instance.pk or None`: a falsy pk (None or 0) becomes None. */
  function PkOf(instance: Option<Record>): (r: Option<int>)
    ensures r.Some? <==> instance.Some? && IntTruthy(instance.value.pk)
    ensures r.Some? ==> r == instance.value.pk && r.value != 0
  {
    match instance
    case None => None
    case Some(rec) => if IntTruthy(rec.pk) then rec.pk else None
  }

  /** The value `kwargs.pop('signal_pk', None)` yields, read as an integer pk. */
  function SignalPkOf(kw: Context): (r: Option<int>)
    ensures r.Some? <==> "signal_pk" in kw && kw["signal_pk"].Int?
    ensures r.Some? ==> kw["signal_pk"] == Int(r.value)
  {
    if "signal_pk" in kw && kw["signal_pk"].Int? then Some(kw["signal_pk"].i) else None
  }

  /** The fields `__init__` captures from the caller's dict. */
  function OriginOf(sender: string, kw: Context): (r: Origin)
    ensures r.sender == sender
    ensures r.instance.Some? <==> "instance" in kw && kw["instance"].Instance?
    ensures r.instance.Some? ==> kw["instance"] == Instance(r.instance.value)
    ensures r.pk.Some? <==> r.instance.Some? && IntTruthy(r.instance.value.pk)
    ensures r.pk.Some? ==> r.pk == r.instance.value.pk
    ensures r.signalPk.Some? <==> "signal_pk" in kw && kw["signal_pk"].Int?
    ensures r.signalPk.Some? ==> kw["signal_pk"] == Int(r.signalPk.value)
  {
    Origin(sender, InstanceOf(kw), PkOf(InstanceOf(kw)), SignalPkOf(kw))
  }

  /** `get_old_instance`: the stored row is looked up only for an instance with a truthy pk;
      a lookup that finds nothing gives None. */
  function OldInstance(pk: Option<int>, stored: Option<Record>): (r: Value)
    ensures r != NoneValue <==> pk.Some? && stored.Some?
    ensures r != NoneValue ==> r == Instance(stored.value)
  {
    if pk.Some? && stored.Some? then Instance(stored.value) else NoneValue
  }

  predicate Eligible(u: User) {
    u.isActive && !u.isStaff && !u.isSuperuser
  }

  /** `User.objects.filter(is_active=True, is_staff=False, is_superuser=False)`, in directory order. */
  function EligibleUsers(directory: seq<User>): (r: seq<User>)
    ensures forall u :: u in r <==> u in directory && Eligible(u)
    ensures |r| <= |directory|
  {
    if directory == [] then []
    else
      var rest := EligibleUsers(directory[1..]);
      assert directory == [directory[0]] + directory[1..];
      if Eligible(directory[0]) then [directory[0]] + rest else rest
  }

  /** The filter keeps every eligible user exactly as often as the directory lists it. */
  lemma {:induction false} EligibleUsersCounts(directory: seq<User>)
    ensures forall u :: multiset(EligibleUsers(directory))[u] == if Eligible(u) then multiset(directory)[u] else 0
  {
    if directory != [] {
      EligibleUsersCounts(directory[1..]);
      assert directory == [directory[0]] + directory[1..];
    }
  }

  /** The filter works user by user: it distributes over concatenation and keeps a single user
      exactly when eligible, so it keeps the directory's order. */
  lemma {:induction false} EligibleUsersAppend(a: seq<User>, b: seq<User>)
    ensures EligibleUsers(a + b) == EligibleUsers(a) + EligibleUsers(b)
    ensures forall u :: EligibleUsers([u]) == if Eligible(u) then [u] else []
  {
    if a == [] {
      assert a + b == b;
    } else {
      assert (a + b)[0] == a[0] && (a + b)[1..] == a[1..] + b;
      EligibleUsersAppend(a[1..], b);
    }
    forall u ensures EligibleUsers([u]) == if Eligible(u) then [u] else [] {
      assert [u][1..] == [];
    }
  }

  /** `get_users`: the eligible users when the feature is enabled, an empty list otherwise. */
  function GetUsers(enabled: bool, directory: seq<User>): (r: Value)
    ensures r.Users?
    ensures forall u :: u in r.users <==> enabled && u in directory && Eligible(u)
  {
    if enabled then Users(EligibleUsers(directory)) else Users([])
  }

  /** The keys `__init__` writes into the dict. */
  const ReceiverKeys: set<string> := {"signal_pk", "old_instance", "users", "date", "date_time"}

  /** The dict after `__init__`: `signal_pk` popped, then `old_instance`, `users`, `date`
      and `date_time` written; every other caller-supplied entry is kept as it was. */
  function InitialContext(kw: Context, stored: Option<Record>, users: Value, today: int, now: int): (r: Context)
    ensures "signal_pk" !in r
    ensures r.Keys == kw.Keys - {"signal_pk"} + {"old_instance", "users", "date", "date_time"}
    ensures forall k :: k in kw && k !in ReceiverKeys ==> r[k] == kw[k]
    ensures r["old_instance"] == OldInstance(PkOf(InstanceOf(kw)), stored)
    ensures r["users"] == users && r["date"] == Date(today) && r["date_time"] == DateTime(now)
    ensures InstanceOf(r) == InstanceOf(kw)
  {
    (kw - {"signal_pk"})["old_instance" := OldInstance(PkOf(InstanceOf(kw)), stored)]
      ["users" := users]["date" := Date(today)]["date_time" := DateTime(now)]
  }

  /** `signal_receiver` drops the framework's own `signal` argument before anything else. */
  function WithoutSignal(kw: Context): (r: Context)
    ensures "signal" !in r
    ensures forall k :: k != "signal" ==> (k in r <==> k in kw)
    ensures forall k :: k in r ==> r[k] == kw[k]
  {
    if "signal" in kw then kw - {"signal"} else kw
  }

  // ---------------------------------------------------------------- rule lookup

  /** `get_signal_list`: the active signals for the sender's model, in table order. */
  function ActiveSignalsFor(table: seq<Signal>, model: string): (r: seq<Signal>)
    ensures forall s :: s in r <==> s in table && s.isActive && s.model == model
    ensures |r| <= |table|
  {
    if table == [] then []
    else
      var rest := ActiveSignalsFor(table[1..], model);
      assert table == [table[0]] + table[1..];
      if table[0].isActive && table[0].model == model then [table[0]] + rest else rest
  }

  /** The query keeps every matching signal exactly as often as the table holds it (once, for a
      table of distinct rows) and drops every other. */
  lemma {:induction false} ActiveSignalsCounts(table: seq<Signal>, model: string)
    ensures forall s :: multiset(ActiveSignalsFor(table, model))[s]
                        == if s.isActive && s.model == model then multiset(table)[s] else 0
  {
    if table != [] {
      ActiveSignalsCounts(table[1..], model);
      assert table == [table[0]] + table[1..];
    }
  }

  /** Sequence concatenation is associative (stated apart so that it is proved without the
      query's membership facts in scope). */
  lemma ConcatAssoc<T>(x: seq<T>, y: seq<T>, z: seq<T>)
    ensures x + (y + z) == (x + y) + z
  {
  }

  /** The query works row by row: it distributes over concatenation and keeps a single row
      exactly when it is active and watches the model, so it keeps the table's order. */
  lemma {:induction false} ActiveSignalsAppend(a: seq<Signal>, b: seq<Signal>, model: string)
    ensures ActiveSignalsFor(a + b, model) == ActiveSignalsFor(a, model) + ActiveSignalsFor(b, model)
    ensures forall x :: ActiveSignalsFor([x], model) == if x.isActive && x.model == model then [x] else []
  {
    if a == [] {
      assert a + b == b;
    } else {
      assert (a + b)[0] == a[0] && (a + b)[1..] == a[1..] + b;
      ActiveSignalsAppend(a[1..], b, model);
      var h := if a[0].isActive && a[0].model == model then [a[0]] else [];
      ConcatAssoc(h, ActiveSignalsFor(a[1..], model), ActiveSignalsFor(b, model));
    }
    forall x ensures ActiveSignalsFor([x], model) == if x.isActive && x.model == model then [x] else [] {
      assert [x][1..] == [];
    }
  }

  /** `Signal.objects.get(pk=signal_pk, is_active=True)`; None is `DoesNotExist`
      (a lookup with `pk=None` matches nothing). */
  function FindActive(table: seq<Signal>, signalPk: Option<int>): (r: Option<Signal>)
    ensures r.Some? ==> r.value in table && r.value.isActive && signalPk == Some(r.value.pk)
    ensures r.None? ==> forall s :: s in table && s.isActive ==> signalPk != Some(s.pk)
  {
    if signalPk.None? || table == [] then None
    else if table[0].isActive && table[0].pk == signalPk.value then Some(table[0])
    else
      assert table == [table[0]] + table[1..];
      FindActive(table[1..], signalPk)
  }

  /** Primary keys are unique in the `Signal` table. */
  ghost predicate UniquePks(table: seq<Signal>) {
    forall i, j :: 0 <= i < j < |table| ==> table[i].pk != table[j].pk
  }

  /** A deferred re-entry finds exactly the signal that was deferred while it is still active. */
  lemma FindActiveFinds(table: seq<Signal>, s: Signal)
    requires UniquePks(table) && s in table && s.isActive
    ensures FindActive(table, Some(s.pk)) == Some(s)
  {
  }

  // ---------------------------------------------------------------- per-signal decisions

  /** `get_email_list`: the group slug when a group is set, else the rendered template normalised. */
  function GetEmailList(s: Signal, render: Renderer, context: Context): (r: string)
    ensures s.group.Some? ==> r == s.group.value
    ensures s.group.None? ==> '\r' !in r && '\n' !in r && Trimmed(r)
    ensures s.group.None? ==> multiset(r) == multiset(Strip(render(s.rules, context)))['\r' := 0]['\n' := 0]
    ensures s.group.None? ==> (r == [] <==> forall k :: 0 <= k < |render(s.rules, context)| ==> IsSpace(render(s.rules, context)[k]))
  {
    if s.group.Some? then s.group.value else Normalize(render(s.rules, context))
  }

  /** With a group the template plays no part: any renderer and any context give the slug. */
  lemma GroupIgnoresTemplate(s: Signal, render1: Renderer, context1: Context, render2: Renderer, context2: Context)
    requires s.group.Some?
    ensures GetEmailList(s, render1, context1) == GetEmailList(s, render2, context2) == s.group.value
  {
  }

  /** Without a group the list is already normalised. */
  lemma EmailListNormalized(s: Signal, render: Renderer, context: Context)
    requires s.group.None?
    ensures Normalize(GetEmailList(s, render, context)) == GetEmailList(s, render, context)
  {
  }

  /** `get_interval`: `{send_after: interval}` for a non-negative interval outside a deferred
      re-entry, no options otherwise. */
  function GetInterval(s: Signal, signalPk: Option<int>): (r: map<string, int>)
    ensures "send_after" in r <==> s.interval >= 0 && !IntTruthy(signalPk)
    ensures "send_after" in r ==> r["send_after"] == s.interval
    ensures r.Keys <= {"send_after"}
  {
    if s.interval >= 0 && !IntTruthy(signalPk) then map["send_after" := s.interval] else map[]
  }

  /** The condition of `_run`: `interval` truthy and `update_model` set. */
  predicate Defers(s: Signal)
    ensures Defers(s) ==> s.updateModel && (s.interval < 0 || s.interval > 0)
  {
    s.interval != 0 && s.updateModel
  }

  /** `send_mail`: sends once per (signal, instance pk) and only to a non-empty list. */
  function SendMailEffect(o: Origin, s: Signal, render: Renderer, context: Context, ob: Outbox): (r: Outbox)
    ensures GetEmailList(s, render, context) == [] || (s.pk, o.pk) in ob.sent ==> r == ob
    ensures GetEmailList(s, render, context) != [] ==> (s.pk, o.pk) in r.sent
    ensures ob.sent <= r.sent && r.sent - ob.sent <= {(s.pk, o.pk)}
    ensures r.log == ob.log
         || (r.log == ob.log + [Send((s.pk, o.pk), s.template, GetEmailList(s, render, context),
                                     context, o.instance, GetInterval(s, o.signalPk))]
             && (s.pk, o.pk) !in ob.sent)
    ensures (r.log == ob.log) <==> (r.sent == ob.sent)
  {
    var emails := GetEmailList(s, render, context);
    var key := (s.pk, o.pk);
    if emails != [] && key !in ob.sent then
      Outbox(ob.sent + {key}, ob.log + [Send(key, s.template, emails, context, o.instance, GetInterval(s, o.signalPk))])
    else ob
  }

  /** Once `send_mail` has sent for a signal and a pk, calling it again for them (whatever the
      context has become) sends nothing and changes nothing. */
  lemma SendMailOnce(o: Origin, s: Signal, render: Renderer, context1: Context, context2: Context, ob: Outbox)
    requires SendMailEffect(o, s, render, context1, ob) != ob
    ensures var ob1 := SendMailEffect(o, s, render, context1, ob);
            SendMailEffect(o, s, render, context2, ob1) == ob1
  {
  }

  /** A pk of None is one marker per signal: once a mail has gone out for some instance without a
      pk, `send_mail` sends nothing for any other instance without one. */
  lemma NoneKeyShared(o1: Origin, o2: Origin, s: Signal, render: Renderer, context1: Context, context2: Context, ob: Outbox)
    requires o1.pk.None? && o2.pk.None?
    requires SendMailEffect(o1, s, render, context1, ob) != ob
    ensures var ob1 := SendMailEffect(o1, s, render, context1, ob);
            SendMailEffect(o2, s, render, context2, ob1) == ob1
  {
  }

  /** `_run`: defer (record `signal_pk` in the shared dict, enqueue with `countdown=interval`)
      exactly when `Defers(s)`; otherwise `send_mail`, with nothing enqueued. */
  function RunSignalEffect(o: Origin, s: Signal, render: Renderer, w: World): (r: World)
    ensures Defers(s) <==> |r.outbox.log| == |w.outbox.log| + 1 && r.outbox.log[|w.outbox.log|].Deferred?
    ensures Defers(s) ==> (r.context == w.context["signal_pk" := Int(s.pk)]
                           && r.outbox == Outbox(w.outbox.sent, w.outbox.log + [Deferred(o.sender, r.context, s.interval)]))
    ensures !Defers(s) ==> r.context == w.context && r.outbox == SendMailEffect(o, s, render, w.context, w.outbox)
  {
    if Defers(s) then
      var kwargs := w.context["signal_pk" := Int(s.pk)];
      World(kwargs, Outbox(w.outbox.sent, w.outbox.log + [Deferred(o.sender, kwargs, s.interval)]))
    else
      World(w.context, SendMailEffect(o, s, render, w.context, w.outbox))
  }

  /** The edges of the `_run` condition: an interval of 0 never defers and, outside a re-entry,
      mails with `send_after=0`; without `update_model` nothing defers; any non-zero interval
      with `update_model`, a negative one included, defers. */
  lemma IntervalEdgeCases(o: Origin, s: Signal, render: Renderer, w: World)
    ensures s.interval == 0 ==> RunSignalEffect(o, s, render, w).outbox == SendMailEffect(o, s, render, w.context, w.outbox)
    ensures s.interval == 0 && !IntTruthy(o.signalPk) ==> GetInterval(s, o.signalPk) == map["send_after" := 0]
    ensures !s.updateModel ==> RunSignalEffect(o, s, render, w).outbox == SendMailEffect(o, s, render, w.context, w.outbox)
    ensures s.interval < 0 && s.updateModel ==>
              RunSignalEffect(o, s, render, w).outbox.log == w.outbox.log + [Deferred(o.sender, w.context["signal_pk" := Int(s.pk)], s.interval)]
    ensures s.interval > 0 && s.updateModel ==>
              RunSignalEffect(o, s, render, w).outbox.log == w.outbox.log + [Deferred(o.sender, w.context["signal_pk" := Int(s.pk)], s.interval)]
  {
  }

  // ---------------------------------------------------------------- run and run_deferred

  /** `run`: `_run` for each signal of the list in turn, the dict and the world threaded through. */
  function RunEffect(o: Origin, signals: seq<Signal>, render: Renderer, w: World): (r: World)
    ensures |w.outbox.log| <= |r.outbox.log| <= |w.outbox.log| + |signals|
    ensures r.outbox.log[..|w.outbox.log|] == w.outbox.log
    ensures w.outbox.sent <= r.outbox.sent
    ensures signals == [] ==> r == w
    decreases |signals|
  {
    if signals == [] then w
    else RunSignalEffect(o, signals[|signals| - 1], render, RunEffect(o, signals[..|signals| - 1], render, w))
  }

  /** `run_deferred`: look the signal up again; when it is gone or inactive nothing happens,
      otherwise add `current_instance` to the dict (if it can be found) and `send_mail`. */
  function RunDeferredEffect(o: Origin, table: seq<Signal>, render: Renderer, w: World, current: Option<Record>): (r: World)
    ensures FindActive(table, o.signalPk).None? ==> r == w
    ensures FindActive(table, o.signalPk).Some? ==>
              r.outbox == SendMailEffect(o, FindActive(table, o.signalPk).value, render, r.context, w.outbox)
    ensures (FindActive(table, o.signalPk).Some? && o.pk.Some? && current.Some?) ==>
              r.context == w.context["current_instance" := Instance(current.value)]
    ensures !(o.pk.Some? && current.Some?) ==> r.context == w.context
    ensures |w.outbox.log| <= |r.outbox.log| <= |w.outbox.log| + 1
    ensures r.outbox.log[..|w.outbox.log|] == w.outbox.log
    ensures forall i :: |w.outbox.log| <= i < |r.outbox.log| ==>
              r.outbox.log[i].Send? && (IntTruthy(o.signalPk) ==> r.outbox.log[i].options == map[])
  {
    match FindActive(table, o.signalPk)
    case None => w
    case Some(s) =>
      var context := if o.pk.Some? && current.Some? then w.context["current_instance" := Instance(current.value)] else w.context;
      World(context, SendMailEffect(o, s, render, context, w.outbox))
  }

  // ---------------------------------------------------------------- properties

  /** The sent-marker invariant: every mail sent is marked, and no (signal, pk) pair is mailed twice. */
  ghost predicate OnceOnly(ob: Outbox) {
    && (forall i :: 0 <= i < |ob.log| && ob.log[i].Send? ==> ob.log[i].key in ob.sent)
    && (forall i, j :: 0 <= i < j < |ob.log| && ob.log[i].Send? && ob.log[j].Send? ==> ob.log[i].key != ob.log[j].key)
  }

  lemma SendMailKeepsOnceOnly(o: Origin, s: Signal, render: Renderer, context: Context, ob: Outbox)
    requires OnceOnly(ob)
    ensures OnceOnly(SendMailEffect(o, s, render, context, ob))
  {
  }

  lemma RunSignalKeepsOnceOnly(o: Origin, s: Signal, render: Renderer, w: World)
    requires OnceOnly(w.outbox)
    ensures OnceOnly(RunSignalEffect(o, s, render, w).outbox)
  {
  }

  /** A whole `run` never mails the same (signal, pk) pair twice and marks every mail it sends. */
  lemma {:induction false} RunKeepsOnceOnly(o: Origin, signals: seq<Signal>, render: Renderer, w: World)
    requires OnceOnly(w.outbox)
    ensures OnceOnly(RunEffect(o, signals, render, w).outbox)
  {
    if signals != [] {
      RunKeepsOnceOnly(o, signals[..|signals| - 1], render, w);
      RunSignalKeepsOnceOnly(o, signals[|signals| - 1], render, RunEffect(o, signals[..|signals| - 1], render, w));
    }
  }

  /** A deferred re-entry keeps the invariant too. */
  lemma RunDeferredKeepsOnceOnly(o: Origin, table: seq<Signal>, render: Renderer, w: World, current: Option<Record>)
    requires OnceOnly(w.outbox)
    ensures OnceOnly(RunDeferredEffect(o, table, render, w, current).outbox)
  {
  }

  /** Redelivering a deferred task after it has sent a mail sends nothing more. */
  lemma RunDeferredOnce(o: Origin, table: seq<Signal>, render: Renderer, w: World, current1: Option<Record>, current2: Option<Record>)
    requires RunDeferredEffect(o, table, render, w, current1).outbox != w.outbox
    ensures var w1 := RunDeferredEffect(o, table, render, w, current1);
            RunDeferredEffect(o, table, render, w1, current2).outbox == w1.outbox
  {
  }

  /** The (signal_pk, countdown) of every deferred task in a log, in order. */
  function Deferrals(log: seq<Effect>): seq<(Value, int)>
    decreases |log|
  {
    if log == [] then []
    else
      Deferrals(log[..|log| - 1]) +
      match log[|log| - 1]
      case Deferred(_, kwargs, countdown) => [(if "signal_pk" in kwargs then kwargs["signal_pk"] else NoneValue, countdown)]
      case _ => []
  }

  /** One (pk, interval) per signal of the list that `_run` defers, in order. */
  function Deferring(signals: seq<Signal>): seq<(Value, int)>
    decreases |signals|
  {
    if signals == [] then []
    else
      var s := signals[|signals| - 1];
      Deferring(signals[..|signals| - 1]) + (if Defers(s) then [(Int(s.pk), s.interval)] else [])
  }

  /** `run` enqueues exactly one deferred task per deferring signal, in the order of the list,
      each carrying that signal's pk and counting down its interval; the rest of what it logs
      are mails. */
  lemma {:induction false} RunDeferrals(o: Origin, signals: seq<Signal>, render: Renderer, w: World)
    ensures var r := RunEffect(o, signals, render, w);
            |w.outbox.log| <= |r.outbox.log| && r.outbox.log[..|w.outbox.log|] == w.outbox.log
            && w.outbox.sent <= r.outbox.sent
            && Deferrals(r.outbox.log) == Deferrals(w.outbox.log) + Deferring(signals)
            && forall i :: |w.outbox.log| <= i < |r.outbox.log| && !r.outbox.log[i].Deferred? ==> r.outbox.log[i].Send?
  {
    if signals != [] {
      var init := signals[..|signals| - 1];
      var s := signals[|signals| - 1];
      var prev := RunEffect(o, init, render, w);
      RunDeferrals(o, init, render, w);
      var r := RunSignalEffect(o, s, render, prev);
      assert r == RunEffect(o, signals, render, w);
      if r.outbox.log != prev.outbox.log {
        var e := r.outbox.log[|prev.outbox.log|];
        assert r.outbox.log == prev.outbox.log + [e];
        assert r.outbox.log[..|r.outbox.log| - 1] == prev.outbox.log;
        assert prev.outbox.log[..|w.outbox.log|] == r.outbox.log[..|w.outbox.log|];
        if Defers(s) {
          assert e == Deferred(o.sender, r.context, s.interval);
          assert r.context["signal_pk"] == Int(s.pk);
        } else {
          assert e.Send?;
        }
      }
    }
  }

  /** The last signal of the list that `_run` defers, if any. */
  function LastDeferring(signals: seq<Signal>): Option<Signal>
    decreases |signals|
  {
    if signals == [] then None
    else if Defers(signals[|signals| - 1]) then Some(signals[|signals| - 1])
    else LastDeferring(signals[..|signals| - 1])
  }

  /** Because `kwargs` and `_kwargs` are one dict, after `run` the dict every later send renders
      against carries `signal_pk` of the last deferred signal, and is otherwise unchanged. */
  lemma {:induction false} RunContext(o: Origin, signals: seq<Signal>, render: Renderer, w: World)
    ensures RunEffect(o, signals, render, w).context ==
              match LastDeferring(signals)
              case None => w.context
              case Some(s) => w.context["signal_pk" := Int(s.pk)]
  {
    if signals != [] {
      RunContext(o, signals[..|signals| - 1], render, w);
    }
  }

  /** A deferred task re-enters with the same instance (hence the same sent-marker key) and with
      `signal_pk` set to the deferred signal, which a fresh receiver pops again. */
  lemma DeferredReentry(o: Origin, s: Signal, render: Renderer, w: World,
                        stored: Option<Record>, users: Value, today: int, now: int)
    requires Defers(s) && o == OriginOf(o.sender, w.context).(signalPk := o.signalPk)
    ensures var r := RunSignalEffect(o, s, render, w);
            var kwargs := r.outbox.log[|w.outbox.log|].kwargs;
            && OriginOf(o.sender, kwargs) == o.(signalPk := Some(s.pk))
            && "signal_pk" !in InitialContext(kwargs, stored, users, today, now)
            && (s.pk != 0 ==> forall t :: GetInterval(t, Some(s.pk)) == map[])
  {
  }
}

# django-db-mailer: the model-signal dispatcher, in Dafny

This project models `SignalReceiver` in `dbmail/signals.py`. This is the code that runs when a
tracked model instance is saved or deleted. It fetches the active notification rules (`Signal`
rows) for the sender's model. For each rule it resolves the recipient list and then either sends
the mail at once or hands a deferred task to the queue. It also keeps a per-(signal, instance pk)
sent marker so that no mail goes out twice.

Three modules:

- `Text` (`text.dfy`): Python's `unicode.strip()` and `unicode.replace(c, '')`, as used to
  normalise a rendered recipient list.
- `Signals` (`signals.dfy`): the data model and the decision code as functions. It covers
  construction of the keyword-argument dict, `get_email_list`, `get_interval`,
  `get_signal_list` and the `Signal.objects.get` lookup. It also holds the effects of
  `send_mail`, `_run`, `run` and `run_deferred` as functions from the old state to the new one,
  and the lemmas about them. The state is a `World`: the receiver's dict plus an `Outbox`, which
  holds the sent markers and a log of mails sent and tasks enqueued.
- `Receiver` (`receiver.dfy`): the objects.
  - `Dict` is a Python dict shared by reference.
  - `Backend` holds the `Signal` table, the template engine, the sent markers and the log.
  - `SignalReceiver` has the source's fields and methods.
  - `Receive` models `signal_receiver`.

  `SendMail`, `RunSignal`, `Run` and `RunDeferred` are proved against the matching effect
  function; the `Dict` and `Backend` methods and `GetCurrentInstance` state their new state
  directly. `kwargs` and `_kwargs` are two `const` fields bound to one `Dict` (`Valid()` says
  so). So the write of `signal_pk` through `_kwargs` in `_run` is seen through `kwargs`.
  `signal_pk` itself is captured once and never changes.

Outside collaborators become inputs:

- The `Signal` table is a sequence in query order.
- The template engine is a function `Renderer`.
- Each ORM lookup (`sender.objects.get`, `_default_manager.get`) is an `Option`, with `None`
  meaning `ObjectDoesNotExist`.
- `ENABLE_USERS`, the user directory, today's date, the current time and `celery_supported()`
  are parameters.

`_run` (line 90) defers exactly when `interval` is non-zero and `update_model` is set
(`Signals.Defers`, `Signals.IntervalEdgeCases`):

- An interval of 0 is mailed at once, with `send_after=0` outside a deferred re-entry.
- A negative interval with `update_model` is deferred, with that negative countdown.
- A positive interval without `update_model` is mailed at once, with `send_after=interval`.

## Model

| member | source | states |
|---|---|---|
| `Text.LStrip` | dbmail/signals.py:44 | the result is the suffix left after every leading whitespace character is dropped; it does not start with whitespace |
| `Text.RStrip` | dbmail/signals.py:44 | the result is the prefix left after every trailing whitespace character is dropped; it does not end with whitespace |
| `Text.Strip` | dbmail/signals.py:44 | `strip()` leaves no whitespace at either end, is empty exactly for an all-whitespace string, and changes nothing when both ends are already non-whitespace |
| `Text.RemoveChar` | dbmail/signals.py:44 | `replace(c, '')` leaves no `c`, keeps every other character that occurs, keeps the first and last characters when they are not `c`, and changes nothing when there is no `c` |
| `Text.RemoveCharAppend` | dbmail/signals.py:44 | `replace(c, '')` distributes over concatenation and drops a single character exactly when it is `c`, so the surviving characters keep their order |
| `Text.RemoveCharCounts` | dbmail/signals.py:44 | `replace(c, '')` keeps every other character exactly as often as it occurs |
| `Text.Normalize` | dbmail/signals.py:44 | the normalised list has no `\r` or `\n`, no whitespace at either end, the characters of the stripped text minus CR/LF, and is empty exactly when the rendered text is all whitespace |
| `Text.NormalizeIdempotent` | dbmail/signals.py:44 | normalising twice gives the same as normalising once |
| `Signals.InstanceOf` | dbmail/signals.py:22 | `instance` is the dict's `instance` entry when that entry is a model instance, and None otherwise |
| `Signals.PkOf` | dbmail/signals.py:23 | `pk` is the instance's pk when there is an instance with a truthy pk, and None otherwise (never 0) |
| `Signals.SignalPkOf` | dbmail/signals.py:26 | `signal_pk` is the integer stored under `signal_pk`, and None when there is none |
| `Signals.OriginOf` | dbmail/signals.py:18-26 | the captured instance is the dict's `instance` entry when it is a model instance, and None otherwise; a pk is captured exactly when that instance's pk is truthy, and it is that pk; `signal_pk` is present exactly when the dict holds an integer under it |
| `Signals.OldInstance` | dbmail/signals.py:59-66 | `old_instance` is the stored row exactly when the instance has a truthy pk and the lookup finds a row, and None otherwise |
| `Signals.EligibleUsers` | dbmail/signals.py:55-56 | a user is listed exactly when it is in the directory, active, not staff and not superuser |
| `Signals.EligibleUsersCounts` | dbmail/signals.py:55-56 | each eligible user is listed exactly as often as the directory holds it, every other user not at all |
| `Signals.EligibleUsersAppend` | dbmail/signals.py:55-56 | the filter distributes over concatenation and keeps a single user exactly when eligible, so the result keeps directory order |
| `Signals.GetUsers` | dbmail/signals.py:52-57 | with the setting off the list is empty; with it on it holds exactly the eligible users |
| `Signals.InitialContext` | dbmail/signals.py:17-31 | after `__init__` the dict has no `signal_pk`; it holds `old_instance`, `users`, `date` and `date_time` with their values, keeps every other entry unchanged, and keeps the same instance |
| `Signals.WithoutSignal` | dbmail/signals.py:118-119 | `signal_receiver` removes the `signal` entry and keeps every other entry |
| `Signals.ActiveSignalsFor` | dbmail/signals.py:33-37 | a signal is listed exactly when it is in the table, active, and watches the sender's model |
| `Signals.ActiveSignalsCounts` | dbmail/signals.py:33-37 | each active signal of the model is listed exactly as often as the table holds it, every other signal not at all |
| `Signals.ActiveSignalsAppend` | dbmail/signals.py:33-37 | the query distributes over concatenation and keeps a single row exactly when it is active and watches the model, so the result keeps table order |
| `Signals.FindActive` | dbmail/signals.py:108 | a found signal is in the table, active and has the requested pk; not finding one means no such signal exists |
| `Signals.FindActiveFinds` | dbmail/signals.py:108 | with unique pks, the lookup returns exactly the active signal whose pk was recorded |
| `Signals.GetEmailList` | dbmail/signals.py:39-44 | with a group, the list is the group's slug; without one it has no CR/LF and no whitespace at either end, holds exactly the characters of the stripped render minus CR/LF, and is empty exactly when the rendered template is all whitespace |
| `Signals.GroupIgnoresTemplate` | dbmail/signals.py:40-41 | with a group, the renderer and context do not matter |
| `Signals.EmailListNormalized` | dbmail/signals.py:43-44 | without a group, the list is a fixed point of the normalisation |
| `Signals.GetInterval` | dbmail/signals.py:46-50 | the options hold `send_after` exactly when `interval >= 0` and `signal_pk` is falsy; its value is `interval`; there is no other key |
| `Signals.SendMailEffect` | dbmail/signals.py:76-85 | an empty list or an existing marker sends nothing and changes nothing; a non-empty list always ends with the marker set; a mail is logged exactly when the marker is newly set, with the list, context, instance and `get_interval` options |
| `Signals.NoneKeyShared` | dbmail/signals.py:80-85 | a pk of None is one marker per signal: after a mail for one instance without a pk, no other instance without a pk gets that signal's mail |
| `Signals.SendMailOnce` | dbmail/signals.py:80-85 | once `send_mail` has sent for a signal and pk, a second call with any context changes nothing |
| `Signals.Defers` | dbmail/signals.py:90 | a signal defers only with `update_model` and a non-zero (possibly negative) interval |
| `Signals.RunSignalEffect` | dbmail/signals.py:87-100 | a deferred task is enqueued exactly when `interval != 0` and `update_model` holds; it counts down `interval` and carries the dict with `signal_pk` set to the signal's pk; otherwise the dict is untouched and the effect is `send_mail`'s |
| `Signals.IntervalEdgeCases` | dbmail/signals.py:90 | interval 0 or no `update_model` goes straight to `send_mail`, with `send_after=0` for interval 0 outside a re-entry; a positive or negative interval with `update_model` is deferred |
| `Signals.RunEffect` | dbmail/signals.py:102-104 | `run` only appends to the log, at most one entry per signal, and only adds sent markers; with no signals nothing changes |
| `Signals.RunDeferredEffect` | dbmail/signals.py:106-112 | with no active signal for `signal_pk`, nothing changes; otherwise `current_instance` is added when found and the outbox is `send_mail`'s effect for the found signal on that dict; at most one mail is logged, never a task; in a re-entry that mail has no options |
| `Signals.SendMailKeepsOnceOnly` | dbmail/signals.py:79-85 | `send_mail` keeps every mail marked and never mails one (signal, pk) pair twice |
| `Signals.RunSignalKeepsOnceOnly` | dbmail/signals.py:87-100 | `_run` keeps that invariant |
| `Signals.RunKeepsOnceOnly` | dbmail/signals.py:102-104 | a whole `run` keeps that invariant |
| `Signals.RunDeferredKeepsOnceOnly` | dbmail/signals.py:106-112 | `run_deferred` keeps that invariant |
| `Signals.RunDeferredOnce` | dbmail/signals.py:106-112 | redelivering a deferred task that already sent its mail changes nothing in the outbox |
| `Signals.RunDeferrals` | dbmail/signals.py:90-104 | `run` only appends to the log and only adds markers; its tasks are exactly one per deferring signal, in list order, each with that signal's pk and interval; every other entry it logs is a mail |
| `Signals.RunContext` | dbmail/signals.py:87-104 | after `run` the shared dict is unchanged, except that `signal_pk` is the pk of the last deferred signal when there was one |
| `Signals.DeferredReentry` | dbmail/signals.py:90-92 | the enqueued dict rebuilds a receiver with the same instance and pk and with `signal_pk` set to the signal's pk; that receiver pops it again (line 26) and, for a non-zero pk, sends with no `send_after` |
| `Receiver.SignalReceiver.constructor` | dbmail/signals.py:17-31 | both names refer to one fresh dict; it holds the `__init__` context; `instance`, `pk` and `signal_pk` are derived from the caller's dict; `signal` is None |
| `Receiver.SignalReceiver.GetCurrentInstance` | dbmail/signals.py:68-74 | `current_instance` is written only when the instance has a truthy pk and the lookup finds a row |
| `Receiver.SignalReceiver.SendMail` | dbmail/signals.py:76-85 | the outbox afterwards is `SendMailEffect` of the one before |
| `Receiver.SignalReceiver.RunSignal` | dbmail/signals.py:87-100 | the dict (seen through `kwargs`) and the outbox afterwards are `RunSignalEffect` of those before; `_run` is recorded once for this signal |
| `Receiver.SignalReceiver.Run` | dbmail/signals.py:102-104 | `_run` is called once per active signal of the sender's model, in query order; `signal` ends as the last of them; the state is `RunEffect` of the state before |
| `Receiver.SignalReceiver.RunDeferred` | dbmail/signals.py:106-112 | the state is `RunDeferredEffect` of the state before; `signal` is set only when the lookup finds one |
| `Receiver.Receive` | dbmail/signals.py:115-131 | `signal` is dropped; with the task queue the event is enqueued as is; otherwise a fresh receiver runs, and the sent-marker invariant is kept |

## Left out

- `initial_signals` (lines 134-140) only connects framework hooks; it has no behaviour to state.
- The retry count, retry delay and queue name passed to `apply_async` are left out; only the
  task, its keyword arguments and its countdown are recorded.
- `Site.objects.get_current()` is left out; the site is not part of any recorded effect.
- `dbmail/models.py` (`is_sent`, `mark_as_sent`), `send_db_mail` and the `tasks` module are
  not part of this model. The sent markers are a set of (signal pk, instance pk) pairs, and
  each send or enqueue is an entry in a log.
- Celery serialises the task's keyword arguments when `apply_async` is called. The model
  records a snapshot of the dict at that moment.
- Exceptions other than `ObjectDoesNotExist` are not modelled: template syntax errors, mail
  errors and `MultipleObjectsReturned`. The last cannot happen for a primary-key lookup.
  `FindActive` returns the first match.
- Concurrency is not modelled, including the atomicity of check-then-mark across workers.
- Primary keys are integers. A `signal_pk` entry that is not an integer is read as absent.
- `Text.Normalize`: its contract gives the characters of the result with their counts but not
  their order; the order follows from `Text.RemoveCharAppend` applied to its definition.
- `Signals.GetEmailList`: the same as `Text.Normalize` for the rendered list's order.
- `Signals.SendMailEffect`: a pk of None is treated as one shared marker per signal
  (`Signals.NoneKeyShared`). This is an assumption about `is_sent(None)` and
  `mark_as_sent(None)` in `dbmail/models.py`, which is not part of this model.
- `Text.IsSpace` follows the whitespace set of Python 2's `unicode` type (Unicode 5.2). A
  byte-string render result would be stripped of ASCII whitespace only.

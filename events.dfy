/** What the system hands to the outside world. send_alert forwards a message to
    the chat bot and to the SMS modem and writes it to the CSV log; log_event
    writes one CSV row. All of these transports are best-effort and swallow
    their own failures, so the model only records, in order, what was handed
    to them. */
module Events {

  datatype Event =
    | Notified(text: string)                               // chat message and SMS
    | Logged(category: string, sub: string, text: string)  // one CSV row

  /** The events of one call send_alert(msg): the notification, then its log row. */
  function AlertEvents(msg: string): seq<Event> {
    [Notified(msg), Logged("ALERT", "SYSTEM", msg)]
  }

  /** The events of sending each message of msgs in turn. */
  function AlertsFor(msgs: seq<string>): (r: seq<Event>)
    ensures |r| == 2 * |msgs|
  {
    if |msgs| == 0 then [] else AlertEvents(msgs[0]) + AlertsFor(msgs[1..])
  }

  /** The texts the operator receives, in the order they are sent. */
  function Notices(evs: seq<Event>): (r: seq<string>)
    ensures |r| <= |evs|
  {
    if |evs| == 0 then []
    else (if evs[0].Notified? then [evs[0].text] else []) + Notices(evs[1..])
  }

  lemma {:induction false} NoticesAppend(a: seq<Event>, b: seq<Event>)
    ensures Notices(a + b) == Notices(a) + Notices(b)
  {
    if |a| == 0 {
      assert a + b == b;
    } else {
      assert (a + b)[1..] == a[1..] + b;
      NoticesAppend(a[1..], b);
    }
  }

  /** Sending a list of alerts notifies the operator of exactly that list. */
  lemma {:induction false} NoticesOfAlerts(msgs: seq<string>)
    ensures Notices(AlertsFor(msgs)) == msgs
  {
    if |msgs| != 0 {
      NoticesAppend(AlertEvents(msgs[0]), AlertsFor(msgs[1..]));
      NoticesOfAlerts(msgs[1..]);
      assert msgs == [msgs[0]] + msgs[1..];
    }
  }

  /** The alert and log transports together (send_alert and log_event). */
  class Outbox {
    var events: seq<Event>

    constructor ()
      ensures events == []
    {
      events := [];
    }

    method SendAlert(msg: string)
      modifies this
      ensures events == old(events) + AlertEvents(msg)
    {
      events := events + [Notified(msg)];
      LogEvent("ALERT", "SYSTEM", msg);
    }

    method LogEvent(category: string, sub: string, msg: string)
      modifies this
      ensures events == old(events) + [Logged(category, sub, msg)]
    {
      events := events + [Logged(category, sub, msg)];
    }
  }
}

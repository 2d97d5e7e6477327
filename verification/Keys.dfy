/** The Redis keys of the kanban queues (internal/kanban/interface.go). Main result: `KeysNeverCollide`. */
module Keys {
  import opened Basics
  import opened Decimal

  /** A queue: the kanbans before or after one numbered instance of a service, or a static topic. */
  datatype QueueName = Before(service: string, number: int) | After(service: string, number: int) | Static(topic: string)

  datatype StatusType = BeforeStatus | AfterStatus | StaticStatus

  /** `strings.Join(parts, ":")` */
  function JoinColon(parts: seq<string>): string {
    if parts == [] then []
    else if |parts| == 1 then parts[0]
    else parts[0] + ":" + JoinColon(parts[1..])
  }

  function BeforeKey(service: string, number: int): string {
    JoinColon(["kanban", "before", service, Format03(number)])
  }

  function AfterKey(service: string, number: int): string {
    JoinColon(["kanban", "after", service, Format03(number)])
  }

  function StaticKey(topic: string): string {
    JoinColon(["kanban", "static", topic])
  }

  /** Only two of the three status types have keys of this form; for the third the key is empty. */
  function KeyByStatusType(service: string, number: int, status: StatusType): string {
    match status
    case BeforeStatus => BeforeKey(service, number)
    case AfterStatus => AfterKey(service, number)
    case StaticStatus => ""
  }

  function KeyOf(q: QueueName): string {
    match q
    case Before(service, number) => KeyByStatusType(service, number, BeforeStatus)
    case After(service, number) => KeyByStatusType(service, number, AfterStatus)
    case Static(topic) => StaticKey(topic)
  }

  // ---- Reading a key back

  predicate Starts(s: string, prefix: string) {
    prefix <= s
  }

  const BEFORE := "kanban:before:"
  const AFTER := "kanban:after:"
  const STATIC := "kanban:static:"

  function QueueOf(key: string): Option<QueueName> {
    if Starts(key, BEFORE) then
      match NumberedOf(key[|BEFORE|..], ':')
      case Some((service, number)) => Some(Before(service, number))
      case None => None
    else if Starts(key, AFTER) then
      match NumberedOf(key[|AFTER|..], ':')
      case Some((service, number)) => Some(After(service, number))
      case None => None
    else if Starts(key, STATIC) then Some(Static(key[|STATIC|..]))
    else None
  }

  // ---- The keys determine the queues

  lemma NumberedKeyReads(service: string, number: int)
    ensures NumberedOf(service + ":" + Format03(number), ':') == Some((service, number))
  {
    ParseFormat03(number);
    NumberedRoundTrip(service, ':', Format03(number));
  }

  lemma NumberedKey(kind: string, service: string, number: int)
    ensures JoinColon(["kanban", kind, service, Format03(number)])
         == ("kanban:" + kind + ":") + (service + ":" + Format03(number))
  {
    var numeral := Format03(number);
    assert [service, numeral][1..] == [numeral];
    assert [kind, service, numeral][1..] == [service, numeral];
    assert ["kanban", kind, service, numeral][1..] == [kind, service, numeral];
    assert JoinColon([service, numeral]) == service + ":" + numeral;
    assert JoinColon([kind, service, numeral]) == kind + ":" + (service + ":" + numeral);
    var rest := service + ":" + numeral;
    assert "kanban" + ":" + (kind + ":" + rest) == ("kanban:" + kind + ":") + rest;
  }

  lemma StaticKeyText(topic: string)
    ensures StaticKey(topic) == STATIC + topic
  {
    assert ["static", topic][1..] == [topic];
    assert JoinColon(["static", topic]) == "static" + ":" + topic;
    assert ["kanban", "static", topic][1..] == ["static", topic];
    assert "kanban" + ":" + ("static" + ":" + topic) == STATIC + topic;
  }

  /** The prefixes differ at their eighth character. */
  lemma PrefixesDiffer(rest: string)
    ensures !Starts(AFTER + rest, BEFORE) && !Starts(STATIC + rest, BEFORE) && !Starts(STATIC + rest, AFTER)
  {
    assert BEFORE[7] == 'b' && AFTER[7] == 'a' && STATIC[7] == 's';
    assert (AFTER + rest)[7] == 'a' && (STATIC + rest)[7] == 's';
  }

  lemma DropPrefix(prefix: string, rest: string)
    ensures Starts(prefix + rest, prefix) && (prefix + rest)[|prefix|..] == rest
  {
  }

  /** Every key can be read back, whatever colons or dashes the service or the topic has in its name. */
  lemma KeyRoundTrip(q: QueueName)
    ensures QueueOf(KeyOf(q)) == Some(q)
  {
    match q {
      case Before(service, number) =>
        NumberedKey("before", service, number);
        assert "kanban:" + "before" + ":" == BEFORE;
        DropPrefix(BEFORE, service + ":" + Format03(number));
        NumberedKeyReads(service, number);
      case After(service, number) =>
        NumberedKey("after", service, number);
        assert "kanban:" + "after" + ":" == AFTER;
        DropPrefix(AFTER, service + ":" + Format03(number));
        PrefixesDiffer(service + ":" + Format03(number));
        NumberedKeyReads(service, number);
      case Static(topic) =>
        StaticKeyText(topic);
        DropPrefix(STATIC, topic);
        PrefixesDiffer(topic);
    }
  }

  /** Two queues share a stream only if they are the same queue, and none has the empty key of a third status type. */
  lemma KeysNeverCollide(p: QueueName, q: QueueName)
    ensures KeyOf(p) == KeyOf(q) <==> p == q
    ensures forall service, number :: KeyOf(p) != KeyByStatusType(service, number, StaticStatus)
  {
    KeyRoundTrip(p);
    KeyRoundTrip(q);
  }
}

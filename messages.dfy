/** The message renderer of `HipchatMessage`: the message kinds, the alert
    records parsed from the monitoring system's pipe-delimited input, the
    colour rule, and the message object whose `RenderMessage` fills in its
    colour. */
module Messages {

  import opened Wrappers
  import opened Fields

  /** The four message kinds; the short kinds share the field layout and colour
      rule of their full counterparts and only shorten the body. */
  datatype Kind = Host | ShortHost | Service | ShortService
  {
    /** The kind's name as the monitoring system passes it. */
    function Name(): string
    {
      match this
      case Host => "host"
      case ShortHost => "short-host"
      case Service => "service"
      case ShortService => "short-service"
    }

    /** True for the kinds whose input is a host alert. */
    predicate IsHostKind()
    {
      this == Host || this == ShortHost
    }

    /** Number of pipe-separated fields of the kind's input. */
    function FieldCount(): (n: nat)
      ensures n == (if IsHostKind() then 6 else 7)
    {
      if IsHostKind() then |HostEvent.FieldNames| else |ServiceEvent.FieldNames|
    }
  }

  /** The ways rendering can fail. */
  datatype Error =
    | InvalidInputFormat(raw: string, kind: Kind)
    | UnknownMessageKind(name: string)

  /** The kind a name denotes; any name other than the four kind names is an
      unknown message kind. */
  function ParseKind(name: string): (r: Result<Kind, Error>)
    ensures r.Ok? ==> r.value.Name() == name
    ensures r.Err? ==> r.error == UnknownMessageKind(name)
    ensures r.Err? <==> forall k: Kind :: k.Name() != name
  {
    if name == "host" then Ok(Host)
    else if name == "short-host" then Ok(ShortHost)
    else if name == "service" then Ok(Service)
    else if name == "short-service" then Ok(ShortService)
    else
      assert forall k: Kind :: k.Name() in {"host", "short-host", "service", "short-service"};
      Err(UnknownMessageKind(name))
  }

  /** Every kind is found again from its name. */
  lemma KindNameRoundTrip(kind: Kind)
    ensures ParseKind(kind.Name()) == Ok(kind)
  {
  }

  /** A host alert: `$HOSTNAME$|$LONGDATETIME$|$NOTIFICATIONTYPE$|$HOSTADDRESS$|$HOSTSTATE$|$HOSTOUTPUT$`. */
  datatype HostEvent = HostEvent(
    hostname: string,
    longDateTime: string,
    notificationType: string,
    hostAddress: string,
    hostState: string,
    hostOutput: string)
  {
    static const FieldNames: seq<string> :=
      ["hostname", "longdatetime", "notificationtype", "hostaddress", "hoststate", "hostoutput"]

    function FieldList(): (f: seq<string>)
      ensures |f| == |FieldNames|
    {
      [hostname, longDateTime, notificationType, hostAddress, hostState, hostOutput]
    }
  }

  /** A service alert: `$SERVICEDESC$|$HOSTALIAS$|$LONGDATETIME$|$NOTIFICATIONTYPE$|$HOSTADDRESS$|$SERVICESTATE$|$SERVICEOUTPUT$`. */
  datatype ServiceEvent = ServiceEvent(
    serviceDesc: string,
    hostAlias: string,
    longDateTime: string,
    notificationType: string,
    hostAddress: string,
    serviceState: string,
    serviceOutput: string)
  {
    static const FieldNames: seq<string> :=
      ["servicedesc", "hostalias", "longdatetime", "notificationtype", "hostaddress", "servicestate", "serviceoutput"]

    function FieldList(): (f: seq<string>)
      ensures |f| == |FieldNames|
    {
      [serviceDesc, hostAlias, longDateTime, notificationType, hostAddress, serviceState, serviceOutput]
    }
  }

  /** A parsed alert of either layout. */
  datatype Event = HostAlert(host: HostEvent) | ServiceAlert(service: ServiceEvent)
  {
    function NotificationType(): string
    {
      match this
      case HostAlert(h) => h.notificationType
      case ServiceAlert(s) => s.notificationType
    }

    /** The host state of a host alert, the service state of a service alert. */
    function State(): string
    {
      match this
      case HostAlert(h) => h.hostState
      case ServiceAlert(s) => s.serviceState
    }

    /** The alert's fields, in the order of its input line. */
    function FieldList(): seq<string>
    {
      match this
      case HostAlert(h) => h.FieldList()
      case ServiceAlert(s) => s.FieldList()
    }

    /** The same alert with another timestamp. */
    function WithTimestamp(longDateTime: string): Event
    {
      match this
      case HostAlert(h) => HostAlert(h.(longDateTime := longDateTime))
      case ServiceAlert(s) => ServiceAlert(s.(longDateTime := longDateTime))
    }

    /** The layout this alert belongs to. */
    predicate Fits(kind: Kind)
    {
      HostAlert? == kind.IsHostKind()
    }

    /** Every field but the free-text output is free of pipes, so the alert
        can be written as one input line and read back. */
    predicate WellFormed()
    {
      var f := FieldList();
      forall i :: 0 <= i < |f| - 1 ==> Pipe !in f[i]
    }
  }

  /** Parses `raw` with the field layout of `kind`. The first pipes delimit the
      fields; the output text, last, keeps any further pipes. Fewer fields than
      the layout has is an invalid input format. */
  function Parse(kind: Kind, raw: string): (r: Result<Event, Error>)
    ensures r.Ok? <==> |Split(raw, Pipe)| >= kind.FieldCount()
    ensures r.Err? ==> r.error == InvalidInputFormat(raw, kind)
    ensures r.Ok? ==> r.value.Fits(kind)
  {
    match SplitFields(raw, Pipe, kind.FieldCount())
    case None => Err(InvalidInputFormat(raw, kind))
    case Some(f) =>
      if kind.IsHostKind() then
        Ok(HostAlert(HostEvent(f[0], f[1], f[2], f[3], f[4], f[5])))
      else
        Ok(ServiceAlert(ServiceEvent(f[0], f[1], f[2], f[3], f[4], f[5], f[6])))
  }

  /** The input line the monitoring system writes for an alert: its fields
      joined by pipes. The bounded split of the line of a well-formed alert
      gives back exactly the alert's fields. */
  function Format(e: Event): (line: string)
    ensures e.WellFormed() ==> SplitFields(line, Pipe, |e.FieldList()|) == Some(e.FieldList())
  {
    if e.WellFormed() then
      SplitFieldsOfJoin(e.FieldList(), Pipe);
      Join(e.FieldList(), Pipe)
    else
      Join(e.FieldList(), Pipe)
  }

  /** A parsed alert is well formed and writes back to the input it came from. */
  lemma FormatParse(kind: Kind, raw: string)
    requires Parse(kind, raw).Ok?
    ensures Parse(kind, raw).value.WellFormed()
    ensures Format(Parse(kind, raw).value) == raw
  {
    SplitFieldsJoin(raw, Pipe, kind.FieldCount());
    var f := SplitFields(raw, Pipe, kind.FieldCount()).value;
    assert Parse(kind, raw).value.FieldList() == f;
  }

  /** Writing a well-formed alert and parsing it with its layout gives back the alert. */
  lemma ParseFormat(kind: Kind, e: Event)
    requires e.Fits(kind) && e.WellFormed()
    ensures Parse(kind, Format(e)) == Ok(e)
  {
    SplitFieldsOfJoin(e.FieldList(), Pipe);
  }

  /** The notification type comes from the third field of a host alert and the
      fourth of a service alert, the state from the fifth and sixth. */
  lemma ParsedFieldPositions(kind: Kind, raw: string)
    requires Parse(kind, raw).Ok?
    ensures var parts := Split(raw, Pipe);
      Parse(kind, raw).value.NotificationType() == parts[if kind.IsHostKind() then 2 else 3] &&
      Parse(kind, raw).value.State() == parts[if kind.IsHostKind() then 4 else 5]
  {
  }

  /** The colours a message can have. */
  datatype Colour = Red | Green | Yellow | Gray | Purple
  {
    /** The colour's name as the chat service expects it. */
    function Name(): string
    {
      match this
      case Red => "red"
      case Green => "green"
      case Yellow => "yellow"
      case Gray => "gray"
      case Purple => "purple"
    }
  }

  const Acknowledgement: string := "ACKNOWLEDGEMENT"
  const Recovery: string := "RECOVERY"

  /** Colour of a host state; DOWN, UNREACHABLE and any state not listed are red. */
  function HostStateColour(state: string): (c: Colour)
    ensures c == Green <==> state == "UP"
    ensures c == Red <==> state != "UP"
  {
    match state
    case "UP" => Green
    case "DOWN" => Red
    case "UNREACHABLE" => Red
    case _ => Red
  }

  /** Colour of a service state; any state not listed is red. */
  function ServiceStateColour(state: string): (c: Colour)
    ensures c == Green <==> state == "OK"
    ensures c == Yellow <==> state == "WARNING"
    ensures c == Gray <==> state == "UNKNOWN"
    ensures c == Red <==> state !in {"OK", "WARNING", "UNKNOWN"}
  {
    match state
    case "OK" => Green
    case "WARNING" => Yellow
    case "CRITICAL" => Red
    case "UNKNOWN" => Gray
    case _ => Red
  }

  /** The colour of a message: an acknowledgement is purple and a recovery green
      whatever the state; any other notification takes the colour of the state,
      looked up in the host or the service table. */
  function MessageColour(kind: Kind, notificationType: string, state: string): (c: Colour)
    ensures c == Purple <==> notificationType == Acknowledgement
    ensures c == Green <==>
      notificationType != Acknowledgement &&
      (notificationType == Recovery || state == (if kind.IsHostKind() then "UP" else "OK"))
    ensures c == Yellow <==>
      !kind.IsHostKind() && notificationType !in {Acknowledgement, Recovery} && state == "WARNING"
    ensures c == Gray <==>
      !kind.IsHostKind() && notificationType !in {Acknowledgement, Recovery} && state == "UNKNOWN"
  {
    if notificationType == Acknowledgement then Purple
    else if notificationType == Recovery then Green
    else if kind.IsHostKind() then HostStateColour(state)
    else ServiceStateColour(state)
  }

  /** The colour `render_message` gives a message of the named kind with the
      raw input, or why it cannot render it. */
  function Render(kindName: string, raw: string): (r: Result<Colour, Error>)
    ensures (forall k: Kind :: k.Name() != kindName) ==> r == Err(UnknownMessageKind(kindName))
    ensures forall k: Kind | k.Name() == kindName ::
      (r.Err? <==> |Split(raw, Pipe)| < k.FieldCount()) &&
      (r.Err? ==> r.error == InvalidInputFormat(raw, k))
  {
    match ParseKind(kindName)
    case Err(e) => Err(e)
    case Ok(kind) =>
      match Parse(kind, raw)
      case Err(e) => Err(e)
      case Ok(event) => Ok(MessageColour(kind, event.NotificationType(), event.State()))
  }

  /** The colour of a well-formed alert's input line depends on its notification
      type and state alone: not on the timestamp, names, address or output. */
  lemma RenderFormatted(kind: Kind, e: Event)
    requires e.Fits(kind) && e.WellFormed()
    ensures Render(kind.Name(), Format(e)) == Ok(MessageColour(kind, e.NotificationType(), e.State()))
  {
    ParseFormat(kind, e);
  }

  /** The colour does not depend on the timestamp field: replacing it by any
      other timestamp without a pipe leaves the rendering unchanged. */
  lemma ColourIgnoresTimestamp(kind: Kind, raw: string, longDateTime: string)
    requires Parse(kind, raw).Ok? && Pipe !in longDateTime
    ensures Render(kind.Name(), Format(Parse(kind, raw).value.WithTimestamp(longDateTime)))
      == Render(kind.Name(), raw)
  {
    var e := Parse(kind, raw).value;
    FormatParse(kind, raw);
    var e' := e.WithTimestamp(longDateTime);
    assert e'.WellFormed() by {
      var f, f' := e.FieldList(), e'.FieldList();
      assert forall i :: 0 <= i < |f'| - 1 ==> f'[i] == f[i] || f'[i] == longDateTime;
    }
    RenderFormatted(kind, e');
    RenderFormatted(kind, e);
  }

  /** The short host kind renders the same colour as the host kind on every
      input, and fails on the same inputs. */
  lemma ShortHostSameColour(raw: string)
    ensures Render("short-host", raw).Ok? == Render("host", raw).Ok?
    ensures Render("short-host", raw).Ok? ==> Render("short-host", raw).value == Render("host", raw).value
  {
  }

  /** The short service kind renders the same colour as the service kind on
      every input, and fails on the same inputs. */
  lemma ShortServiceSameColour(raw: string)
    ensures Render("short-service", raw).Ok? == Render("service", raw).Ok?
    ensures Render("short-service", raw).Ok? ==> Render("short-service", raw).value == Render("service", raw).value
  {
  }

  /** A message under construction: the kind name and the raw input it was
      built from, and the colour that rendering fills in. */
  class HipchatMessage
  {
    const messageType: string
    const inputs: string
    var messageColor: Option<Colour>

    constructor (messageType: string, inputs: string)
      ensures this.messageType == messageType && this.inputs == inputs
      ensures messageColor == None
    {
      this.messageType := messageType;
      this.inputs := inputs;
      messageColor := None;
    }

    /** Parses the input with the layout of the message kind and sets the
        message colour; on an unknown kind or a malformed input it reports the
        error and leaves the colour as it was. */
    method RenderMessage() returns (outcome: Result<Colour, Error>)
      modifies this
      ensures outcome == Render(messageType, inputs)
      ensures messageColor == (if outcome.Ok? then Some(outcome.value) else old(messageColor))
    {
      var kind := ParseKind(messageType);
      if kind.Err? {
        return Err(kind.error);
      }
      var event := Parse(kind.value, inputs);
      if event.Err? {
        return Err(event.error);
      }
      var colour := MessageColour(kind.value, event.value.NotificationType(), event.value.State());
      messageColor := Some(colour);
      outcome := Ok(colour);
    }
  }
}

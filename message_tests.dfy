/** The renderer's test suite restated: each group of assertions becomes a
    lemma over every timestamp the monitoring system may put in the input (any
    text without a pipe), followed by the same assertions made through the
    message object. */
module MessageTests {

  import opened Wrappers
  import opened Fields
  import opened Messages

  /** The host input of the test suite, with its three variable fields: the
      input line of the host alert that has those fields. */
  function HostInputs(longDateTime: string, notificationType: string, hostState: string): (line: string)
    ensures line == Format(HostAlert(HostEvent("hostname", longDateTime, notificationType, "127.0.0.1", hostState, "NAGIOS_OUTPUT")))
  {
    HostTemplateShape(longDateTime, notificationType, hostState);
    HostFieldsJoin(longDateTime, notificationType, hostState);
    "hostname|" + longDateTime + "|" + notificationType + "|127.0.0.1|" + hostState + "|NAGIOS_OUTPUT"
  }

  /** The service input of the test suite, with its three variable fields: the
      input line of the service alert that has those fields. */
  function ServiceInputs(longDateTime: string, notificationType: string, serviceState: string): (line: string)
    ensures line == Format(ServiceAlert(ServiceEvent("servicedesc", "hostalias", longDateTime, notificationType, "127.0.0.1", serviceState, "NAGIOS_OUTPUT")))
  {
    ServiceTemplateShape(longDateTime, notificationType, serviceState);
    ServiceFieldsJoin(longDateTime, notificationType, serviceState);
    "servicedesc|hostalias|" + longDateTime + "|" + notificationType + "|127.0.0.1|" + serviceState + "|NAGIOS_OUTPUT"
  }

  /** The host test template with its pipes written out field by field. */
  lemma HostTemplateShape(longDateTime: string, notificationType: string, hostState: string)
    ensures "hostname|" + longDateTime + "|" + notificationType + "|127.0.0.1|" + hostState + "|NAGIOS_OUTPUT"
      == "hostname" + [Pipe] + (longDateTime + [Pipe] + (notificationType + [Pipe] + ("127.0.0.1" + [Pipe] + (hostState + [Pipe] + "NAGIOS_OUTPUT"))))
  {
  }

  /** The six host fields joined by pipes, written out field by field. */
  lemma HostFieldsJoin(longDateTime: string, notificationType: string, hostState: string)
    ensures Join(["hostname", longDateTime, notificationType, "127.0.0.1", hostState, "NAGIOS_OUTPUT"], Pipe)
      == "hostname" + [Pipe] + (longDateTime + [Pipe] + (notificationType + [Pipe] + ("127.0.0.1" + [Pipe] + (hostState + [Pipe] + "NAGIOS_OUTPUT"))))
  {
    JoinCons("hostname", [longDateTime, notificationType, "127.0.0.1", hostState, "NAGIOS_OUTPUT"], Pipe);
    JoinCons(longDateTime, [notificationType, "127.0.0.1", hostState, "NAGIOS_OUTPUT"], Pipe);
    JoinCons(notificationType, ["127.0.0.1", hostState, "NAGIOS_OUTPUT"], Pipe);
    JoinCons("127.0.0.1", [hostState, "NAGIOS_OUTPUT"], Pipe);
    JoinCons(hostState, ["NAGIOS_OUTPUT"], Pipe);
    assert ["hostname"] + [longDateTime, notificationType, "127.0.0.1", hostState, "NAGIOS_OUTPUT"]
      == ["hostname", longDateTime, notificationType, "127.0.0.1", hostState, "NAGIOS_OUTPUT"];
    assert [longDateTime] + [notificationType, "127.0.0.1", hostState, "NAGIOS_OUTPUT"]
      == [longDateTime, notificationType, "127.0.0.1", hostState, "NAGIOS_OUTPUT"];
    assert [notificationType] + ["127.0.0.1", hostState, "NAGIOS_OUTPUT"] == [notificationType, "127.0.0.1", hostState, "NAGIOS_OUTPUT"];
    assert ["127.0.0.1"] + [hostState, "NAGIOS_OUTPUT"] == ["127.0.0.1", hostState, "NAGIOS_OUTPUT"];
    assert [hostState] + ["NAGIOS_OUTPUT"] == [hostState, "NAGIOS_OUTPUT"];
  }

  /** The service test template with its pipes written out field by field. */
  lemma ServiceTemplateShape(longDateTime: string, notificationType: string, serviceState: string)
    ensures "servicedesc|hostalias|" + longDateTime + "|" + notificationType + "|127.0.0.1|" + serviceState + "|NAGIOS_OUTPUT"
      == "servicedesc" + [Pipe] + ("hostalias" + [Pipe] + (longDateTime + [Pipe] + (notificationType + [Pipe] + ("127.0.0.1" + [Pipe] + (serviceState + [Pipe] + "NAGIOS_OUTPUT")))))
  {
  }

  /** The seven service fields joined by pipes, written out field by field. */
  lemma ServiceFieldsJoin(longDateTime: string, notificationType: string, serviceState: string)
    ensures Join(["servicedesc", "hostalias", longDateTime, notificationType, "127.0.0.1", serviceState, "NAGIOS_OUTPUT"], Pipe)
      == "servicedesc" + [Pipe] + ("hostalias" + [Pipe] + (longDateTime + [Pipe] + (notificationType + [Pipe] + ("127.0.0.1" + [Pipe] + (serviceState + [Pipe] + "NAGIOS_OUTPUT")))))
  {
    JoinCons("servicedesc", ["hostalias", longDateTime, notificationType, "127.0.0.1", serviceState, "NAGIOS_OUTPUT"], Pipe);
    JoinCons("hostalias", [longDateTime, notificationType, "127.0.0.1", serviceState, "NAGIOS_OUTPUT"], Pipe);
    JoinCons(longDateTime, [notificationType, "127.0.0.1", serviceState, "NAGIOS_OUTPUT"], Pipe);
    JoinCons(notificationType, ["127.0.0.1", serviceState, "NAGIOS_OUTPUT"], Pipe);
    JoinCons("127.0.0.1", [serviceState, "NAGIOS_OUTPUT"], Pipe);
    JoinCons(serviceState, ["NAGIOS_OUTPUT"], Pipe);
    assert ["servicedesc"] + ["hostalias", longDateTime, notificationType, "127.0.0.1", serviceState, "NAGIOS_OUTPUT"]
      == ["servicedesc", "hostalias", longDateTime, notificationType, "127.0.0.1", serviceState, "NAGIOS_OUTPUT"];
    assert ["hostalias"] + [longDateTime, notificationType, "127.0.0.1", serviceState, "NAGIOS_OUTPUT"]
      == ["hostalias", longDateTime, notificationType, "127.0.0.1", serviceState, "NAGIOS_OUTPUT"];
    assert [longDateTime] + [notificationType, "127.0.0.1", serviceState, "NAGIOS_OUTPUT"]
      == [longDateTime, notificationType, "127.0.0.1", serviceState, "NAGIOS_OUTPUT"];
    assert [notificationType] + ["127.0.0.1", serviceState, "NAGIOS_OUTPUT"] == [notificationType, "127.0.0.1", serviceState, "NAGIOS_OUTPUT"];
    assert ["127.0.0.1"] + [serviceState, "NAGIOS_OUTPUT"] == ["127.0.0.1", serviceState, "NAGIOS_OUTPUT"];
    assert [serviceState] + ["NAGIOS_OUTPUT"] == [serviceState, "NAGIOS_OUTPUT"];
  }

  /** A test host input renders with the colour of its notification type and state. */
  lemma RenderHostInputs(kind: Kind, longDateTime: string, notificationType: string, hostState: string)
    requires kind.IsHostKind()
    requires Pipe !in longDateTime && Pipe !in notificationType && Pipe !in hostState
    ensures Render(kind.Name(), HostInputs(longDateTime, notificationType, hostState))
      == Ok(MessageColour(kind, notificationType, hostState))
  {
    var e := HostAlert(HostEvent("hostname", longDateTime, notificationType, "127.0.0.1", hostState, "NAGIOS_OUTPUT"));
    assert e.WellFormed();
    RenderFormatted(kind, e);
  }

  /** A test service input renders with the colour of its notification type and state. */
  lemma RenderServiceInputs(kind: Kind, longDateTime: string, notificationType: string, serviceState: string)
    requires !kind.IsHostKind()
    requires Pipe !in longDateTime && Pipe !in notificationType && Pipe !in serviceState
    ensures Render(kind.Name(), ServiceInputs(longDateTime, notificationType, serviceState))
      == Ok(MessageColour(kind, notificationType, serviceState))
  {
    var e := ServiceAlert(ServiceEvent("servicedesc", "hostalias", longDateTime, notificationType, "127.0.0.1", serviceState, "NAGIOS_OUTPUT"));
    assert e.WellFormed();
    RenderFormatted(kind, e);
  }

  /** A host problem with the host down is red, for the full and the short host kind. */
  lemma HostProblemDownIsRed(longDateTime: string)
    requires Pipe !in longDateTime
    ensures Render("host", HostInputs(longDateTime, "PROBLEM", "DOWN")) == Ok(Red)
    ensures Render("short-host", HostInputs(longDateTime, "PROBLEM", "DOWN")) == Ok(Red)
  {
    RenderHostInputs(Host, longDateTime, "PROBLEM", "DOWN");
    RenderHostInputs(ShortHost, longDateTime, "PROBLEM", "DOWN");
  }

  /** A host recovery with the host up is green. */
  lemma HostRecoveryUpIsGreen(longDateTime: string)
    requires Pipe !in longDateTime
    ensures Render("host", HostInputs(longDateTime, "RECOVERY", "UP")) == Ok(Green)
  {
    RenderHostInputs(Host, longDateTime, "RECOVERY", "UP");
  }

  /** An unrecognised host state falls back to red. */
  lemma HostUnreachableUnknownStateIsRed(longDateTime: string)
    requires Pipe !in longDateTime
    ensures Render("host", HostInputs(longDateTime, "UNREACHABLE", "UKNOWN")) == Ok(Red)
  {
    RenderHostInputs(Host, longDateTime, "UNREACHABLE", "UKNOWN");
  }

  /** A host acknowledgement is purple although the host is down. */
  lemma HostAcknowledgementIsPurple(longDateTime: string)
    requires Pipe !in longDateTime
    ensures Render("host", HostInputs(longDateTime, "ACKNOWLEDGEMENT", "DOWN")) == Ok(Purple)
  {
    RenderHostInputs(Host, longDateTime, "ACKNOWLEDGEMENT", "DOWN");
  }

  /** A service problem with the service in WARNING is yellow. */
  lemma ServiceProblemWarningIsYellow(longDateTime: string)
    requires Pipe !in longDateTime
    ensures Render("service", ServiceInputs(longDateTime, "PROBLEM", "WARNING")) == Ok(Yellow)
  {
    RenderServiceInputs(Service, longDateTime, "PROBLEM", "WARNING");
  }

  /** A service problem with the service CRITICAL is red, for the full and the
      short service kind. */
  lemma ServiceProblemCriticalIsRed(longDateTime: string)
    requires Pipe !in longDateTime
    ensures Render("service", ServiceInputs(longDateTime, "PROBLEM", "CRITICAL")) == Ok(Red)
    ensures Render("short-service", ServiceInputs(longDateTime, "PROBLEM", "CRITICAL")) == Ok(Red)
  {
    RenderServiceInputs(Service, longDateTime, "PROBLEM", "CRITICAL");
    RenderServiceInputs(ShortService, longDateTime, "PROBLEM", "CRITICAL");
  }

  /** A service problem with the service in state UNKNOWN is gray. */
  lemma ServiceProblemUnknownIsGray(longDateTime: string)
    requires Pipe !in longDateTime
    ensures Render("service", ServiceInputs(longDateTime, "PROBLEM", "UNKNOWN")) == Ok(Gray)
  {
    RenderServiceInputs(Service, longDateTime, "PROBLEM", "UNKNOWN");
  }

  /** A service recovery with the service OK is green. */
  lemma ServiceRecoveryOkIsGreen(longDateTime: string)
    requires Pipe !in longDateTime
    ensures Render("service", ServiceInputs(longDateTime, "RECOVERY", "OK")) == Ok(Green)
  {
    RenderServiceInputs(Service, longDateTime, "RECOVERY", "OK");
  }

  /** A service acknowledgement is purple although the service is critical. */
  lemma ServiceAcknowledgementIsPurple(longDateTime: string)
    requires Pipe !in longDateTime
    ensures Render("service", ServiceInputs(longDateTime, "ACKNOWLEDGEMENT", "CRITICAL")) == Ok(Purple)
  {
    RenderServiceInputs(Service, longDateTime, "ACKNOWLEDGEMENT", "CRITICAL");
  }

  /** A host problem rendered through message objects of both host kinds; each reads back its colour name. */
  method TestRenderHostProblem(longDateTime: string) returns (hostColour: string, shortHostColour: string)
    requires Pipe !in longDateTime
    ensures hostColour == "red" && shortHostColour == "red"
  {
    HostProblemDownIsRed(longDateTime);
    var inputs := HostInputs(longDateTime, "PROBLEM", "DOWN");
    var msg := new HipchatMessage("host", inputs);
    var _ := msg.RenderMessage();
    hostColour := msg.messageColor.value.Name();
    msg := new HipchatMessage("short-host", inputs);
    var _ := msg.RenderMessage();
    shortHostColour := msg.messageColor.value.Name();
  }

  /** A host recovery rendered through a message object, which reads back its colour name. */
  method TestRenderHostRecovery(longDateTime: string) returns (colour: string)
    requires Pipe !in longDateTime
    ensures colour == "green"
  {
    HostRecoveryUpIsGreen(longDateTime);
    var inputs := HostInputs(longDateTime, "RECOVERY", "UP");
    var msg := new HipchatMessage("host", inputs);
    var _ := msg.RenderMessage();
    colour := msg.messageColor.value.Name();
  }

  /** A host in an unrecognised state rendered through a message object, which reads back its colour name. */
  method TestRenderHostUnreachable(longDateTime: string) returns (colour: string)
    requires Pipe !in longDateTime
    ensures colour == "red"
  {
    HostUnreachableUnknownStateIsRed(longDateTime);
    var inputs := HostInputs(longDateTime, "UNREACHABLE", "UKNOWN");
    var msg := new HipchatMessage("host", inputs);
    var _ := msg.RenderMessage();
    colour := msg.messageColor.value.Name();
  }

  /** A host acknowledgement rendered through a message object, which reads back its colour name. */
  method TestRenderHostAcknowledgement(longDateTime: string) returns (colour: string)
    requires Pipe !in longDateTime
    ensures colour == "purple"
  {
    HostAcknowledgementIsPurple(longDateTime);
    var inputs := HostInputs(longDateTime, "ACKNOWLEDGEMENT", "DOWN");
    var msg := new HipchatMessage("host", inputs);
    var _ := msg.RenderMessage();
    colour := msg.messageColor.value.Name();
  }

  /** A service warning rendered through a message object, which reads back its colour name. */
  method TestRenderServiceWarning(longDateTime: string) returns (colour: string)
    requires Pipe !in longDateTime
    ensures colour == "yellow"
  {
    ServiceProblemWarningIsYellow(longDateTime);
    var inputs := ServiceInputs(longDateTime, "PROBLEM", "WARNING");
    var msg := new HipchatMessage("service", inputs);
    var _ := msg.RenderMessage();
    colour := msg.messageColor.value.Name();
  }

  /** A critical service rendered through message objects of both service kinds; each reads back its colour name. */
  method TestRenderServiceCritical(longDateTime: string) returns (serviceColour: string, shortServiceColour: string)
    requires Pipe !in longDateTime
    ensures serviceColour == "red" && shortServiceColour == "red"
  {
    ServiceProblemCriticalIsRed(longDateTime);
    var inputs := ServiceInputs(longDateTime, "PROBLEM", "CRITICAL");
    var msg := new HipchatMessage("service", inputs);
    var _ := msg.RenderMessage();
    serviceColour := msg.messageColor.value.Name();
    msg := new HipchatMessage("short-service", inputs);
    var _ := msg.RenderMessage();
    shortServiceColour := msg.messageColor.value.Name();
  }

  /** A service in state UNKNOWN rendered through a message object, which reads back its colour name. */
  method TestRenderServiceUnknown(longDateTime: string) returns (colour: string)
    requires Pipe !in longDateTime
    ensures colour == "gray"
  {
    ServiceProblemUnknownIsGray(longDateTime);
    var inputs := ServiceInputs(longDateTime, "PROBLEM", "UNKNOWN");
    var msg := new HipchatMessage("service", inputs);
    var _ := msg.RenderMessage();
    colour := msg.messageColor.value.Name();
  }

  /** A service recovery rendered through a message object, which reads back its colour name. */
  method TestRenderServiceRecovery(longDateTime: string) returns (colour: string)
    requires Pipe !in longDateTime
    ensures colour == "green"
  {
    ServiceRecoveryOkIsGreen(longDateTime);
    var inputs := ServiceInputs(longDateTime, "RECOVERY", "OK");
    var msg := new HipchatMessage("service", inputs);
    var _ := msg.RenderMessage();
    colour := msg.messageColor.value.Name();
  }

  /** A service acknowledgement rendered through a message object, which reads back its colour name. */
  method TestRenderServiceAcknowledgement(longDateTime: string) returns (colour: string)
    requires Pipe !in longDateTime
    ensures colour == "purple"
  {
    ServiceAcknowledgementIsPurple(longDateTime);
    var inputs := ServiceInputs(longDateTime, "ACKNOWLEDGEMENT", "CRITICAL");
    var msg := new HipchatMessage("service", inputs);
    var _ := msg.RenderMessage();
    colour := msg.messageColor.value.Name();
  }
}

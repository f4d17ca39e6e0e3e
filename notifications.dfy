/**
 * Out-of-range alerts and their delivery: the global and per-sensor switches,
 * the level filter, and the e-mail and SMS channels with their configuration
 * checks. What the mail server or Twilio does once reached is a parameter.
 */
module Notifications {
  import opened Common
  import opened SettingsStore

  /** A message body: free text, or the out-of-range alert before its numbers are formatted. */
  datatype Body =
    | Plain(text: string)
    | Alert(sensor: string, value: real, min: real, max: Option<real>)

  /** A message handed to a transport: the recipient setting as stored, the subject and the body. */
  datatype Attempt = Mail(to: Value, subject: string, body: Body) | Sms(to: Value, subject: string, body: Body)

  /** Whether the SMTP exchange and the Twilio call succeed once they are reached. */
  datatype Transport = Transport(mailDelivers: bool, smsDelivers: bool)

  /** `Settings.get(key, default)`. */
  function Setting(values: map<string, Value>, key: string, default: Value): (v: Value)
    ensures key in values ==> v == values[key]
    ensures key !in values ==> v == default
  {
    if key in values then values[key] else default
  }

  /** The `notification_level` filter (default 'info'). */
  predicate LevelPasses(values: map<string, Value>, level: string)
  {
    var setting := Setting(values, "notification_level", Text("info"));
    && !(setting == Text("critical") && level != "critical")
    && !(setting == Text("warning") && level != "warning" && level != "critical")
  }

  /** 'critical' lets only critical messages through, 'warning' adds warnings, anything else lets all through. */
  lemma LevelFilter(values: map<string, Value>, level: string)
    ensures Setting(values, "notification_level", Text("info")) == Text("critical") ==> (LevelPasses(values, level) <==> level == "critical")
    ensures Setting(values, "notification_level", Text("info")) == Text("warning") ==>
              (LevelPasses(values, level) <==> level == "warning" || level == "critical")
    ensures Setting(values, "notification_level", Text("info")) !in {Text("critical"), Text("warning")} ==> LevelPasses(values, level)
  {
  }

  // ---------------------------------------------------------------------
  // The channels
  // ---------------------------------------------------------------------

  /** The SMTP account is configured: a user and a password are set. */
  predicate MailConfigured(values: map<string, Value>)
  {
    Truthy(Setting(values, "email_user", Text(""))) && Truthy(Setting(values, "email_password", Text("")))
  }

  /** The Twilio account is configured: an account id, a token and a sender number are set. */
  predicate TwilioConfigured(values: map<string, Value>)
  {
    && Truthy(Setting(values, "twilio_account_sid", Text("")))
    && Truthy(Setting(values, "twilio_auth_token", Text("")))
    && Truthy(Setting(values, "twilio_phone_number", Text("")))
  }

  /** `send_email`: nothing is sent without credentials; otherwise the server decides. */
  function SendEmail(values: map<string, Value>, to: Value, subject: string, body: Body, t: Transport): (bool, seq<Attempt>)
  {
    if !MailConfigured(values) then (false, [])
    else (t.mailDelivers, [Mail(to, subject, body)])
  }

  /** `send_sms`: only the 'twilio' service (the default) exists, and it needs its credentials. */
  function SendSms(values: map<string, Value>, to: Value, subject: string, body: Body, t: Transport): (bool, seq<Attempt>)
  {
    if Setting(values, "sms_service", Text("twilio")) != Text("twilio") then (false, [])
    else if !TwilioConfigured(values) then (false, [])
    else (t.smsDelivers, [Sms(to, subject, body)])
  }

  /** The e-mail channel is switched on and has an address. */
  predicate MailWanted(values: map<string, Value>)
  {
    TruthySetting(values, "email_notifications", false) && Truthy(Setting(values, "email_address", Text("")))
  }

  /** The SMS channel is switched on, has a number, and the message is critical or every message is wanted. */
  predicate SmsWanted(values: map<string, Value>, level: string)
  {
    && TruthySetting(values, "sms_notifications", false)
    && Truthy(Setting(values, "phone_number", Text("")))
    && (level == "critical" || Setting(values, "sms_frequency", Text("critical")) == Text("all"))
  }

  // ---------------------------------------------------------------------
  // send_notification
  // ---------------------------------------------------------------------

  /** `send_notification`: the level filter, then e-mail, then SMS; the result is whether some channel delivered. */
  function Notification(values: map<string, Value>, subject: string, body: Body, level: string, t: Transport): (bool, seq<Attempt>)
  {
    if !LevelPasses(values, level) then (false, [])
    else
      var mail := if MailWanted(values) then SendEmail(values, Setting(values, "email_address", Text("")), subject, body, t) else (false, []);
      var sms := if SmsWanted(values, level) then SendSms(values, Setting(values, "phone_number", Text("")), subject, body, t) else (false, []);
      (mail.0 || sms.0, mail.1 + sms.1)
  }

  /**
   * The notification counts as sent exactly when it passes the level filter and
   * some channel that is wanted and configured delivers it; at most one e-mail
   * and then at most one SMS is attempted.
   */
  lemma NotificationRules(values: map<string, Value>, subject: string, body: Body, level: string, t: Transport)
    ensures var (sent, attempts) := Notification(values, subject, body, level, t);
      var mailGoes := MailWanted(values) && MailConfigured(values);
      var smsGoes := SmsWanted(values, level) && Setting(values, "sms_service", Text("twilio")) == Text("twilio") && TwilioConfigured(values);
      && (sent <==> LevelPasses(values, level) && ((mailGoes && t.mailDelivers) || (smsGoes && t.smsDelivers)))
      && (!LevelPasses(values, level) ==> attempts == [])
      && (LevelPasses(values, level) ==>
            attempts == (if mailGoes then [Mail(values["email_address"], subject, body)] else [])
                        + (if smsGoes then [Sms(values["phone_number"], subject, body)] else []))
  {
  }

  /** `send_notification` with its `notifications_sent` flag accumulated channel by channel. */
  method SendNotification(values: map<string, Value>, subject: string, body: Body, level: string, t: Transport)
    returns (sent: bool, attempts: seq<Attempt>)
    ensures (sent, attempts) == Notification(values, subject, body, level, t)
  {
    if !LevelPasses(values, level) {
      return false, [];
    }
    sent := false;
    attempts := [];
    ghost var mail := if MailWanted(values) then SendEmail(values, Setting(values, "email_address", Text("")), subject, body, t) else (false, []);
    if TruthySetting(values, "email_notifications", false) {
      var address := Setting(values, "email_address", Text(""));
      if Truthy(address) {
        var (ok, tried) := SendEmail(values, address, subject, body, t);
        sent := sent || ok;
        attempts := attempts + tried;
        assert [] + tried == tried;
      }
    }
    assert (sent, attempts) == mail;
    if TruthySetting(values, "sms_notifications", false) {
      var number := Setting(values, "phone_number", Text(""));
      if Truthy(number) {
        var frequency := Setting(values, "sms_frequency", Text("critical"));
        if level == "critical" || frequency == Text("all") {
          var (ok, tried) := SendSms(values, number, subject, body, t);
          sent := sent || ok;
          attempts := attempts + tried;
        }
      }
    }
    assert mail.1 + [] == mail.1;
  }

  // ---------------------------------------------------------------------
  // notify_out_of_range
  // ---------------------------------------------------------------------

  /** The subject of an out-of-range alert. */
  function AlertSubject(sensor: string): string
  {
    "Alert: " + Upper(sensor) + " out of range"
  }

  /**
   * `notify_out_of_range`: the global switch and the sensor's own switch (both on
   * by default), then a warning-level notification. `None` when formatting the
   * bounds raises: pH and temperature format them as numbers, so a maximum that
   * is not a number raises there; EC prints whatever it gets.
   */
  function NotifyOutOfRange(values: map<string, Value>, sensor: string, value: real, min: real, max: Option<real>, t: Transport)
    : Option<(bool, seq<Attempt>)>
  {
    if !TruthySetting(values, "notifications_enabled", true) then Some((false, []))
    else if !TruthySetting(values, "notify_" + Lower(sensor), true) then Some((false, []))
    else if (sensor == "ph" || sensor == "temp") && max.None? then None
    else Some(Notification(values, AlertSubject(sensor), Alert(sensor, value, min, max), "warning", t))
  }

  /** Either switch turned off stops the alert before anything is formatted or sent. */
  lemma SwitchesGateAlerts(values: map<string, Value>, sensor: string, value: real, min: real, max: Option<real>, t: Transport)
    requires !TruthySetting(values, "notifications_enabled", true) || !TruthySetting(values, "notify_" + Lower(sensor), true)
    ensures NotifyOutOfRange(values, sensor, value, min, max, t) == Some((false, []))
  {
  }

  /** An alert that goes out is a warning titled with the upper-cased sensor name. */
  lemma AlertsAreWarnings(values: map<string, Value>, sensor: string, value: real, min: real, max: Option<real>, t: Transport)
    requires TruthySetting(values, "notifications_enabled", true) && TruthySetting(values, "notify_" + Lower(sensor), true)
    requires max.Some? || sensor == "ec"
    ensures NotifyOutOfRange(values, sensor, value, min, max, t)
         == Some(Notification(values, AlertSubject(sensor), Alert(sensor, value, min, max), "warning", t))
  {
  }

  /** The pH alert is titled "Alert: PH out of range". */
  lemma PhAlertSubject(sensor: string)
    requires sensor == "ph"
    ensures AlertSubject(sensor) == "Alert: PH out of range"
  {
    assert Upper(sensor) == "PH";
  }

  /**
   * Under the default level and SMS frequency a warning goes by e-mail only:
   * an SMS is sent only for critical messages.
   */
  lemma WarningsSkipSmsByDefault(values: map<string, Value>, subject: string, body: Body, t: Transport)
    requires "sms_frequency" !in values
    ensures forall a :: a in Notification(values, subject, body, "warning", t).1 ==> a.Mail?
  {
  }
}

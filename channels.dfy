/** `NotificationChannel`, the enumeration a client picks its notifications
    by, with its name and the parse that mappers and services use. */
module Channels {
  import opened Common
  import opened Text

  datatype NotificationChannel = Email | Sms

  /** `channel.ToString()`. */
  function ChannelName(c: NotificationChannel): string {
    match c
    case Email => "Email"
    case Sms => "Sms"
  }

  /** `Enum.TryParse<NotificationChannel>(name, ignoreCase: true, ...)`,
      restricted to member names: the member that `name` names once the
      white space around it is dropped, compared up to case, if there is
      one. */
  function TryParseChannel(name: string): (r: Option<NotificationChannel>)
    ensures r.Some? <==> exists c: NotificationChannel :: NamesMember(name, ChannelName(c))
    ensures r.Some? ==> NamesMember(name, ChannelName(r.value))
  {
    var t := Trim(name);
    if EqualsIgnoreCase(t, "Email") then
      assert NamesMember(name, ChannelName(Email));
      Some(Email)
    else if EqualsIgnoreCase(t, "Sms") then
      assert NamesMember(name, ChannelName(Sms));
      Some(Sms)
    else
      assert forall c: NotificationChannel :: !NamesMember(name, ChannelName(c)) by {
        forall c: NotificationChannel ensures !NamesMember(name, ChannelName(c)) {
          if c.Email? { assert ChannelName(c) == "Email"; } else { assert ChannelName(c) == "Sms"; }
        }
      }
      None
  }

  /** Text that names a channel parses to that channel: its name in any
      case, with any white space around it. */
  lemma {:induction false} ParseChannelName(c: NotificationChannel, spelling: string)
    requires NamesMember(spelling, ChannelName(c))
    ensures TryParseChannel(spelling) == Some(c)
  {
    var e := ToLowerInvariant("Email");
    var s := ToLowerInvariant("Sms");
    assert e[0] != s[0];
  }

  /** A channel's own name is trimmed, so it names that channel. */
  lemma ChannelNameNamesChannel(c: NotificationChannel)
    ensures NamesMember(ChannelName(c), ChannelName(c))
  {
    TrimOfTrimmed(ChannelName(c));
  }
}

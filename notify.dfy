/**
 * The print hook: decide whether a displayed message deserves a push
 * notification, word it, and describe the HTTP request handed to the host.
 */
module Notify {
  import opened Wrappers
  import opened Host
  import PyStr
  import Options

  /** The buffer attributes and callback arguments `notify` reads. */
  datatype PrintEvent = PrintEvent(
    bufferName: string,   // the buffer's `name`, `<server>.<channel>` for a channel
    bufferType: string,   // the buffer's local variable `type`
    server: string,       // the buffer's local variable `server`
    highlighted: int,     // the callback's highlight flag
    prefix: string)       // the sender's nick

  /** A call to `hook_process_hashtable`: command, options, timeout and completion callback. */
  datatype Request = Request(
    command: string,
    post: string,
    postFields: map<string, string>,   // the form fields before URL encoding
    timeout: int,
    callback: string,
    callbackData: string)

  const Endpoint := "url:https://api.pushover.net:443/1/messages.json"

  function PrivateMessage(nick: string, server: string): string
  {
    nick + " sent you a private message on " + server
  }

  function MentionMessage(nick: string, channel: string): string
  {
    nick + " mentioned you in " + channel
  }

  /** The request that delivers `message` with the configured credentials. */
  function BuildRequest(settings: Options.Settings, message: string): Request
  {
    Request(Endpoint, "1",
      map["token" := settings.appToken, "user" := settings.userKey,
          "sound" := settings.sound, "message" := message],
      settings.timeout, "message_sent", "")
  }

  /**
   * `notify`: skip anything but private buffers and highlighted channel
   * lines; otherwise submit one request. Taking the channel from a buffer
   * name without a dot raises IndexError.
   */
  function Notify(event: PrintEvent, settings: Options.Settings): Call<Option<Request>>
  {
    if event.bufferType != "private" && event.bufferType != "channel" then Returned(Ok, None)
    else if event.bufferType == "channel" && event.highlighted == 0 then Returned(Ok, None)
    else if event.bufferType == "private" then
      Returned(Ok, Some(BuildRequest(settings, PrivateMessage(event.prefix, event.server))))
    else
      var parts := PyStr.SplitOnce(event.bufferName, '.');
      if |parts| < 2 then Raised(IndexError)
      else Returned(Ok, Some(BuildRequest(settings, MentionMessage(event.prefix, parts[1]))))
  }

  /** Lines in buffers other than private and channel buffers are ignored. */
  lemma OtherBuffersIgnored(event: PrintEvent, settings: Options.Settings)
    requires event.bufferType != "private" && event.bufferType != "channel"
    ensures Notify(event, settings) == Returned(Ok, None)
  {
  }

  /** Channel lines that do not highlight the user are ignored. */
  lemma QuietChannelIgnored(event: PrintEvent, settings: Options.Settings)
    requires event.bufferType == "channel" && event.highlighted == 0
    ensures Notify(event, settings) == Returned(Ok, None)
  {
  }

  /** Every private line notifies, whatever its highlight flag. */
  lemma PrivateNotifies(event: PrintEvent, settings: Options.Settings)
    requires event.bufferType == "private"
    ensures Notify(event, settings)
      == Returned(Ok, Some(BuildRequest(settings, event.prefix + " sent you a private message on " + event.server)))
  {
  }

  /**
   * A highlight in buffer `server.channel` names everything after the first
   * dot, later dots included.
   */
  lemma MentionNotifies(event: PrintEvent, settings: Options.Settings, server: string, channel: string)
    requires event.bufferType == "channel" && event.highlighted != 0
    requires '.' !in server && event.bufferName == server + "." + channel
    ensures Notify(event, settings)
      == Returned(Ok, Some(BuildRequest(settings, event.prefix + " mentioned you in " + channel)))
  {
    PyStr.SplitOnceOfJoin(server, '.', channel);
    assert server + "." + channel == server + ['.'] + channel;
  }

  /** A highlight in a buffer whose name has no dot raises IndexError. */
  lemma DotlessChannelRaises(event: PrintEvent, settings: Options.Settings)
    requires event.bufferType == "channel" && event.highlighted != 0
    requires '.' !in event.bufferName
    ensures Notify(event, settings) == Raised(IndexError)
  {
  }

  /**
   * `notify` sends exactly for private lines and for highlighted lines of
   * channel buffers whose name has a dot, and raises only for highlighted
   * lines of channel buffers without one; it never returns an error code.
   */
  lemma NotifyDecision(event: PrintEvent, settings: Options.Settings)
    ensures Notify(event, settings).Returned? ==> Notify(event, settings).rc == Ok
    ensures (Notify(event, settings).Returned? && Notify(event, settings).effect.Some?)
        <==> (event.bufferType == "private"
              || (event.bufferType == "channel" && event.highlighted != 0 && '.' in event.bufferName))
    ensures Notify(event, settings).Raised?
        <==> event.bufferType == "channel" && event.highlighted != 0 && '.' !in event.bufferName
  {
  }

  /**
   * Every request `notify` submits goes by POST to the fixed endpoint with the
   * configured timeout, carries exactly the four form fields, and reports to
   * `message_sent`.
   */
  lemma RequestShape(event: PrintEvent, settings: Options.Settings)
    requires Notify(event, settings).Returned? && Notify(event, settings).effect.Some?
    ensures var req := Notify(event, settings).effect.value;
      && req.command == "url:https://api.pushover.net:443/1/messages.json"
      && req.post == "1"
      && req.timeout == settings.timeout
      && req.callback == "message_sent"
      && req.postFields.Keys == {"token", "user", "sound", "message"}
      && req.postFields["token"] == settings.appToken
      && req.postFields["user"] == settings.userKey
      && req.postFields["sound"] == settings.sound
      && (req.postFields["message"] == event.prefix + " sent you a private message on " + event.server
          || exists channel :: event.bufferName == Head(event.bufferName) + "." + channel
                && req.postFields["message"] == event.prefix + " mentioned you in " + channel)
  {
    if event.bufferType != "private" {
      var parts := PyStr.SplitOnce(event.bufferName, '.');
      assert Head(event.bufferName) == parts[0];
      assert event.bufferName == parts[0] + "." + parts[1];
    }
  }

  /** The part of a buffer name before its first dot. */
  function Head(name: string): string
  {
    PyStr.SplitOnce(name, '.')[0]
  }

  /**
   * On a host with no stored options, a private message is sent with empty
   * credentials, the "default" sound and a 5000 ms timeout.
   */
  lemma FirstStartPrivateMessage(event: PrintEvent)
    requires event.bufferType == "private"
    ensures Options.Resolvable(map[], Options.Specs(Options.DeclaredOptions()))
    ensures var table := Options.ResolvedTable(map[], Options.Specs(Options.DeclaredOptions()));
      Options.SettingsOf(table).Some?
      && Notify(event, Options.SettingsOf(table).value)
        == Returned(Ok, Some(Request(Endpoint, "1",
             map["token" := "", "user" := "", "sound" := "default",
                 "message" := event.prefix + " sent you a private message on " + event.server],
             5000, "message_sent", "")))
  {
    Options.FirstStartSettings();
    var settings := Options.Settings("", "", "default", 5000);
    PrivateNotifies(event, settings);
  }
}

/** The bridge the preload script exposes to the renderer (src/preload/index.ts): `invoke`
    forwards only whitelisted channels, `on` subscribes only to the two shortcut channels, and
    `removeAllListeners` accepts any channel. */
module Preload {
  import opened Types
  import Constants

  const ScreenshotShortcutChannel := "shortcut:screenshot"
  const AudioShortcutChannel := "shortcut:audio"
  const ListenableChannels := [ScreenshotShortcutChannel, AudioShortcutChannel]

  /** A request handed on to the main process: the channel and the renderer's arguments. */
  datatype Forwarded<A> = Forwarded(channel: string, args: A)

  /** invoke: forwards exactly when the channel is one of the constant channel strings, and
      otherwise throws "Invalid channel: <channel>" without forwarding anything. */
  function Invoke<A>(channel: string, args: A): (r: Io<Forwarded<A>>)
    ensures r.Done? <==> channel in Constants.AllChannels
    ensures r.Done? ==> r.value == Forwarded(channel, args)
    ensures r.Threw? ==> r.thrown == ErrorValue("Invalid channel: " + channel)
  {
    Constants.FlattenedChannels();
    if channel in Constants.Flatten(Constants.IpcChannels) then Done(Forwarded(channel, args))
    else Threw(ErrorValue("Invalid channel: " + channel))
  }

  /** on: registers a listener (listeners are kept in registration order, one entry per
      registration) only for the two shortcut channels; other channels are ignored. */
  function On(listeners: seq<string>, channel: string): (r: seq<string>)
    ensures channel in ListenableChannels ==> r == listeners + [channel]
    ensures channel !in ListenableChannels ==> r == listeners
  {
    if channel in ListenableChannels then listeners + [channel] else listeners
  }

  /** removeAllListeners: drops every listener of the channel, whatever the channel. */
  function RemoveAllListeners(listeners: seq<string>, channel: string): (r: seq<string>)
    ensures channel !in r
    ensures forall c :: c != channel ==> multiset(r)[c] == multiset(listeners)[c]
    ensures forall c :: c in r ==> c in listeners
  {
    if listeners == [] then []
    else
      var rest := RemoveAllListeners(listeners[1..], channel);
      assert listeners == [listeners[0]] + listeners[1..];
      if listeners[0] == channel then rest else [listeners[0]] + rest
  }

  /** A call the renderer makes on the listener registry. */
  datatype ListenerCall = OnCall(channel: string) | RemoveAllCall(channel: string)

  function Perform(listeners: seq<string>, call: ListenerCall): seq<string> {
    match call
    case OnCall(ch) => On(listeners, ch)
    case RemoveAllCall(ch) => RemoveAllListeners(listeners, ch)
  }

  function Replay(listeners: seq<string>, calls: seq<ListenerCall>): seq<string>
    decreases |calls|
  {
    if calls == [] then listeners else Replay(Perform(listeners, calls[0]), calls[1..])
  }

  /** Only the two shortcut channels ever have listeners, however `on` and
      `removeAllListeners` calls are interleaved. */
  lemma {:induction false} OnlyShortcutListeners(listeners: seq<string>, calls: seq<ListenerCall>)
    requires forall c :: c in listeners ==> c in ListenableChannels
    ensures forall c :: c in Replay(listeners, calls) ==> c in ListenableChannels
    decreases |calls|
  {
    if calls != [] {
      OnlyShortcutListeners(Perform(listeners, calls[0]), calls[1..]);
    }
  }
}

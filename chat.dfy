/** The renderer's chat log (src/renderer/components/chat.ts): the messages shown, the loading
    flag, and the two pieces of output-element state the log's rules decide, the number of
    loader elements and the `animate-in` class. Markdown rendering and scrolling are not part
    of this model. */
module Chat {
  import opened Types

  class ChatComponent {
    var messages: seq<Message>
    var loading: bool
    /** Loader elements currently in the output element. */
    var loaders: nat
    /** Whether the output element carries the `animate-in` class. */
    var animated: bool

    /** There is at most one loader, and none while not loading. */
    ghost predicate Valid()
      reads this
    {
      loaders <= if loading then 1 else 0
    }

    constructor ()
      ensures Valid()
      ensures messages == [] && !loading && loaders == 0 && !animated
    {
      messages, loading, loaders, animated := [], false, 0, false;
    }

    /** `addMessage`: append, then render; rendering marks the output `animate-in` exactly when
        the log then holds one message. */
    method AddMessage(message: Message)
      requires Valid()
      modifies this
      ensures Valid()
      ensures messages == old(messages) + [message]
      ensures animated == (old(animated) || |old(messages)| == 0)
      ensures loading == old(loading) && loaders == old(loaders)
    {
      messages := messages + [message];
      if |messages| == 1 {
        animated := true;
      }
    }

    /** `showLoading`: a second call while loading changes nothing. */
    method ShowLoading()
      requires Valid()
      modifies this
      ensures Valid() && loading
      ensures !old(loading) ==> loaders == 1
      ensures old(loading) ==> loaders == old(loaders)
      ensures messages == old(messages) && animated == old(animated)
    {
      if loading {
        return;
      }
      loading := true;
      loaders := loaders + 1;
    }

    /** `hideLoading`: clears the flag and removes the loader, if one is shown. */
    method HideLoading()
      requires Valid()
      modifies this
      ensures Valid() && !loading && loaders == 0
      ensures messages == old(messages) && animated == old(animated)
    {
      loading := false;
      if loaders > 0 {
        loaders := loaders - 1;
      }
    }

    /** `clear`: empties the log and the output element; the loading flag is left as it is. */
    method Clear()
      requires Valid()
      modifies this
      ensures Valid()
      ensures messages == [] && loaders == 0 && !animated && loading == old(loading)
    {
      messages := [];
      loaders := 0;
      animated := false;
    }

    /** `getMessages`: a copy of the log, every message in the order it was added. */
    function GetMessages(): (r: seq<Message>)
      reads this
      ensures |r| == |messages| && forall i :: 0 <= i < |r| ==> r[i] == messages[i]
    {
      messages
    }

    /** `setMessages`: replaces the log and re-renders it into an emptied output element. */
    method SetMessages(replacement: seq<Message>)
      requires Valid()
      modifies this
      ensures Valid()
      ensures messages == replacement && loaders == 0 && loading == old(loading)
      ensures animated == (old(animated) || |replacement| == 1)
    {
      messages := replacement;
      loaders := 0;
      if |messages| == 1 {
        animated := true;
      }
    }

    /** `isLoading`: whether a request is in flight; no loader is shown while it is not. */
    function IsLoading(): (r: bool)
      reads this
      ensures r == loading
      ensures Valid() && !r ==> loaders == 0
    {
      loading
    }
  }
}

/**
 * The conversation store (app/hooks/useChatStorage.ts): the in-memory chat
 * history and its mirror in one browser-storage slot. The hook's two effects
 * (load once on mount, save after every history change) are modelled as the
 * explicit calls Load and Save.
 */
module ChatStorage {
  import opened Wrappers

  /** The one storage key the history is kept under. */
  const STORAGE_KEY := "ai-chat-history"

  datatype Role = User | Assistant

  /**
   * An element of the history. A Turn is what addMessage appends, stamped
   * with the clock reading at the call. Unchecked is any other element that
   * a stored array may hold: load restores it without looking at it.
   */
  datatype Entry = Turn(role: Role, content: string, timestamp: nat) | Unchecked

  /**
   * The text held in the slot, as `if (saved)` and `JSON.parse` see it: the
   * empty string (falsy), text that does not parse, JSON that is not an
   * array, or a JSON array.
   */
  datatype Document = Blank | Unparsable | NonArray | JsonArray(elements: seq<Entry>)

  /** `JSON.stringify(chatHistory)` */
  function Serialize(history: seq<Entry>): Document {
    JsonArray(history)
  }

  /**
   * What the load effect does with the slot's content: `Some(h)` when it
   * replaces the history by `h`, `None` when it leaves the history alone.
   * Only the top level is checked; the elements are taken as they are.
   */
  function Restore(slot: Option<Document>): (r: Option<seq<Entry>>)
    ensures r.Some? <==> slot.Some? && slot.value.JsonArray?
    ensures r.Some? ==> Serialize(r.value) == slot.value
  {
    match slot
    case Some(JsonArray(elements)) => Some(elements)
    case _ => None
  }

  /** Whatever was saved is restored exactly, elements and order included. */
  lemma RestoreSaved(history: seq<Entry>)
    ensures Restore(Some(Serialize(history))) == Some(history)
  {
  }

  /**
   * Any array is restored, whatever its elements are: a history made only of
   * unchecked elements comes back as it is.
   */
  lemma RestoreDoesNotCheckElements(n: nat)
    ensures var junk := seq(n, _ => Unchecked);
      Restore(Some(JsonArray(junk))) == Some(junk)
  {
  }

  /**
   * After clearChat the slot is absent; if the save effect then rewrites it
   * (`[]`), the write may fail and leave it absent. Either way, loading it
   * into a fresh, empty history gives the empty history.
   */
  lemma ReloadAfterClear(writeSucceeds: bool)
    ensures var slot := if writeSucceeds then Some(Serialize([])) else None;
      Restore(slot).GetOr([]) == []
  {
  }

  class ChatStorage {
    /** `chatHistory` */
    var history: seq<Entry>
    /** `localStorage[STORAGE_KEY]`: `None` when no item is stored. */
    var slot: Option<Document>

    /** The hook's first render: an empty history, over whatever the slot holds. */
    constructor (stored: Option<Document>)
      ensures history == [] && slot == stored
    {
      history := [];
      slot := stored;
    }

    /**
     * The load effect: replaces the history by the stored array when the slot
     * holds one, and otherwise (absent, blank, unparsable or not an array)
     * leaves it unchanged. Nothing escapes.
     */
    method Load()
      modifies this`history
      ensures history == Restore(slot).GetOr(old(history))
      ensures slot.Some? && slot.value.JsonArray? ==> history == slot.value.elements
      ensures !(slot.Some? && slot.value.JsonArray?) ==> history == old(history)
    {
      if slot == None || slot == Some(Blank) {
        return;
      }
      if slot.value == Unparsable {
        // JSON.parse throws; the error is logged and swallowed.
        return;
      }
      match slot.value
      case JsonArray(elements) =>
        history := elements;
      case _ =>
    }

    /**
     * The save effect: writes the serialised history into the slot. A failed
     * write is swallowed: the slot keeps its old content and the history is
     * untouched.
     */
    method Save(writeSucceeds: bool)
      modifies this`slot
      ensures slot == if writeSucceeds then Some(Serialize(history)) else old(slot)
      ensures writeSucceeds ==> Restore(slot) == Some(history)
    {
      if writeSucceeds {
        slot := Some(Serialize(history));
      }
    }

    /** addMessage: appends one turn, stamped with `now`, after all earlier ones. */
    method AddMessage(role: Role, content: string, now: nat)
      modifies this`history
      ensures history == old(history) + [Turn(role, content, now)]
      ensures |history| == |old(history)| + 1
      ensures history[..|old(history)|] == old(history)
    {
      history := history + [Turn(role, content, now)];
    }

    /** clearChat: empties the history and removes the slot. */
    method ClearChat()
      modifies this
      ensures history == [] && slot == None
    {
      history := [];
      slot := None;
    }
  }

  /**
   * A session that loads whatever was stored, clears the chat and lets the
   * save effect run (its write may fail); a later session loading the slot
   * left behind starts from the empty history.
   */
  method ClearThenReload(stored: Option<Document>, writeSucceeds: bool) returns (reloaded: seq<Entry>)
    ensures reloaded == []
  {
    var session := new ChatStorage(stored);
    session.Load();
    session.ClearChat();
    session.Save(writeSucceeds);
    var next := new ChatStorage(session.slot);
    next.Load();
    reloaded := next.history;
  }
}

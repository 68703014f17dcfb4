/**
 * The token settings modal: loading the stored token when it opens, saving a
 * trimmed non-blank token, clearing it, and when the Save button is enabled.
 */
module TokenSettings {
  import opened Wrappers
  import opened JsBuiltins
  import opened Browser
  import opened RollbarClient

  /** Delay before the modal closes and the page reloads after a save, in milliseconds. */
  const SaveDelayMs := 1000
  /** Delay before the page reloads after clearing, in milliseconds. */
  const ClearDelayMs := 500

  /** What the open modal shows: the field, the "saved" notice, and whether Save is disabled. */
  datatype ModalView = ModalView(token: string, showSavedNotice: bool, saveDisabled: bool)

  class Modal {
    const page: Page
    var token: string
    var isSaved: bool

    constructor (page: Page)
      ensures this.page == page && token == "" && !isSaved
    {
      this.page := page;
      token := "";
      isSaved := false;
    }

    /** The effect run when `isOpen` changes: on opening, the stored token (or '') is loaded. */
    method OnOpenChange(isOpen: bool)
      modifies this
      ensures isOpen ==> token == (if TokenKey in page.storage then page.storage[TokenKey] else "") && !isSaved
      ensures !isOpen ==> token == old(token) && isSaved == old(isSaved)
    {
      if isOpen {
        token := Or(page.GetItem(TokenKey), Some("")).value;
        isSaved := false;
      }
    }

    /** The input's `onChange`: the field takes the typed value. */
    method Edit(value: string)
      modifies this
      ensures token == value && isSaved == old(isSaved)
    {
      token := value;
    }

    /**
     * `handleSave()`: a blank field changes nothing; otherwise the trimmed
     * token is stored, the notice shown, and close-and-reload scheduled.
     */
    method HandleSave()
      modifies this, page
      ensures AllWhitespace(old(token)) ==> unchanged(this) && unchanged(page)
      ensures !AllWhitespace(old(token)) ==>
                && page.storage == old(page.storage)[TokenKey := Trim(old(token))]
                && isSaved && token == old(token)
                && page.timers == old(page.timers) + [Timer(SaveDelayMs, CloseAndReload)]
                && page.reloadRequested == old(page.reloadRequested)
    {
      if Trim(token) != "" {
        page.SetItem(TokenKey, Trim(token));
        isSaved := true;
        page.SetTimeout(SaveDelayMs, CloseAndReload);
      }
    }

    /** `handleClear()`: the stored token is removed, the field emptied, and a reload scheduled. */
    method HandleClear()
      modifies this, page
      ensures page.storage == old(page.storage) - {TokenKey}
      ensures token == "" && !isSaved
      ensures page.timers == old(page.timers) + [Timer(ClearDelayMs, Reload)]
      ensures page.reloadRequested == old(page.reloadRequested)
    {
      page.RemoveItem(TokenKey);
      token := "";
      isSaved := false;
      page.SetTimeout(ClearDelayMs, Reload);
    }

    /** The component's output: nothing when closed; Save disabled iff the field is blank or already saved. */
    function View(isOpen: bool): (v: Option<ModalView>)
      reads this
      ensures !isOpen <==> v.None?
      ensures v.Some? ==> (v.value.saveDisabled <==> AllWhitespace(token) || isSaved)
      ensures v.Some? ==> v.value.showSavedNotice == isSaved && v.value.token == token
    {
      if !isOpen then None
      else Some(ModalView(token, isSaved, Trim(token) == "" || isSaved))
    }
  }

  /** After a save, token resolution yields the trimmed token. */
  lemma SavedTokenResolves(storage: map<string, string>, env: BuildEnv, token: string)
    requires !AllWhitespace(token)
    ensures GetAccessToken(true, storage[TokenKey := Trim(token)], env) == Some(Trim(token))
  {
  }

  /** After clearing, token resolution falls back to the build-time token. */
  lemma ClearedTokenFallsBack(storage: map<string, string>, env: BuildEnv)
    ensures GetAccessToken(true, storage - {TokenKey}, env) == env.clientToken
  {
  }

  /** Reopening after a save shows the trimmed token, and Save is enabled again. */
  method SaveThenReopen(m: Modal, typed: string) returns (v: Option<ModalView>)
    requires !AllWhitespace(typed)
    modifies m, m.page
    ensures v == Some(ModalView(Trim(typed), false, false))
  {
    m.Edit(typed);
    m.HandleSave();
    m.OnOpenChange(true);
    TrimIdempotent(typed);
    v := m.View(true);
  }
}

/**
 * The browser facilities the application touches: `localStorage` (a
 * string-to-string map), `window.location.reload()` (recorded as a request,
 * not performed) and `setTimeout` (recorded as a scheduled intent, not run).
 * `hasWindow` distinguishes the browser from server-side rendering, where
 * `typeof window === 'undefined'`.
 */
module Browser {
  import opened Wrappers

  /** What a scheduled callback does once its delay has elapsed. */
  datatype TimerAction =
    | ClearError       // setError(null)
    | CloseAndReload   // onClose(); window.location.reload()
    | Reload           // window.location.reload()

  /** One `setTimeout(callback, delayMs)` call. */
  datatype Timer = Timer(delayMs: nat, action: TimerAction)

  class Page {
    const hasWindow: bool
    var storage: map<string, string>
    var reloadRequested: bool
    var timers: seq<Timer>

    constructor (hasWindow: bool, storage: map<string, string>)
      ensures this.hasWindow == hasWindow && this.storage == storage
      ensures !reloadRequested && timers == []
    {
      this.hasWindow := hasWindow;
      this.storage := storage;
      reloadRequested := false;
      timers := [];
    }

    /** `localStorage.getItem(key)`, with `None` for `null`. */
    function GetItem(key: string): (r: Option<string>)
      reads this
      ensures r.Some? <==> key in storage
      ensures r.Some? ==> r.value == storage[key]
    {
      if key in storage then Some(storage[key]) else None
    }

    /** `localStorage.setItem(key, value)`. */
    method SetItem(key: string, value: string)
      modifies this
      ensures storage == old(storage)[key := value]
      ensures reloadRequested == old(reloadRequested) && timers == old(timers)
    {
      storage := storage[key := value];
    }

    /** `localStorage.removeItem(key)`: removing an absent key is a no-op. */
    method RemoveItem(key: string)
      modifies this
      ensures storage == old(storage) - {key}
      ensures reloadRequested == old(reloadRequested) && timers == old(timers)
    {
      storage := storage - {key};
    }

    /** `window.location.reload()`: the page asks to be reloaded. */
    method Reload()
      modifies this
      ensures reloadRequested
      ensures storage == old(storage) && timers == old(timers)
    {
      reloadRequested := true;
    }

    /** `setTimeout(action, delayMs)`: the callback is recorded, not run. */
    method SetTimeout(delayMs: nat, action: TimerAction)
      modifies this
      ensures timers == old(timers) + [Timer(delayMs, action)]
      ensures storage == old(storage) && reloadRequested == old(reloadRequested)
    {
      timers := timers + [Timer(delayMs, action)];
    }
  }
}

/** The window manager: a name-keyed registry of Win32 windows. Every entry
    owns its window exclusively (a unique_ptr in the source), so no window
    object appears under two names. */
module WindowManagement {
  import opened Common
  import opened Win32

  /** No two names map to the same window object. */
  ghost predicate Injective(m: map<string, Win32Window>) {
    forall a, b :: a in m && b in m && a != b ==> m[a] != m[b]
  }

  /** Destroys every window of `ws`, all registered under `cls`: each ends
      not live, and the class is unregistered exactly when one of them was. */
  method DestroyAll(ws: set<Win32Window>, cls: WindowClass)
    requires forall w :: w in ws ==> w.cls == cls && w.Valid()
    modifies ws, cls`atom
    ensures forall w :: w in ws ==> w.Valid() && !w.valid && w.hwnd == NULL
    ensures forall w :: w in ws ==> w.cls == cls && w.visible == old(w.visible) && w.title == old(w.title)
    ensures cls.atom == (if exists w :: w in ws && old(w.valid) then 0 else old(cls.atom))
  {
    var pending := ws;
    while pending != {}
      invariant pending <= ws
      invariant forall w :: w in ws ==>
        w.cls == cls && w.Valid() && w.visible == old(w.visible) && w.title == old(w.title)
      invariant forall w :: w in ws && w !in pending ==> !w.valid && w.hwnd == NULL
      invariant forall w :: w in pending ==> w.valid == old(w.valid)
      invariant cls.atom == (if exists w :: w in ws && w !in pending && old(w.valid) then 0 else old(cls.atom))
      decreases pending
    {
      var w :| w in pending;
      w.Destroy();
      pending := pending - {w};
    }
  }

  class WindowManager {
    var windows: map<string, Win32Window>
    var running: bool
    /** The window class shared by every window the manager creates. */
    const cls: WindowClass

    ghost predicate Valid()
      reads this, windows.Values
    {
      && Injective(windows)
      && forall n :: n in windows ==> windows[n].cls == cls && windows[n].Valid()
    }

    constructor (cls: WindowClass)
      ensures Valid() && this.cls == cls
      ensures windows == map[] && running
    {
      this.cls := cls;
      windows := map[];
      running := true;
    }

    /** Rejects a taken name, then creates a window and stores it under `name`
        only if its creation succeeded; `registered` and `created` are the
        native results of RegisterClassEx and CreateWindowEx. */
    method CreateWindow(name: string, title: string, x: int, y: int, width: int, height: int,
                        registered: nat, created: Handle) returns (r: Win32Window?)
      requires Valid()
      modifies this, cls
      ensures Valid() && running == old(running)
      ensures name in old(windows) ==> r == null && windows == old(windows) && unchanged(cls)
      ensures name !in old(windows) && created == NULL ==>
        && r == null && windows == old(windows)
        && cls.atom == RegisteredAtom(old(cls.atom), registered)
      ensures name !in old(windows) && created != NULL ==>
        && r != null && fresh(r) && r.cls == cls
        && windows == old(windows)[name := r]
        && r.valid && r.hwnd == created && r.title == title && !r.visible
        && cls.atom == RegisteredAtom(old(cls.atom), registered)
    {
      var taken := HasWindow(name);
      if taken {
        return null;
      }
      var window := new Win32Window(cls);
      var ok := window.Create(title, x, y, width, height, registered, created);
      if !ok {
        return null;
      }
      windows := windows[name := window];
      return window;
    }

    /** Destroys and removes the window stored under `name`, if any. */
    method DestroyWindow(name: string) returns (ok: bool)
      requires Valid()
      modifies this, windows.Values, cls
      ensures Valid() && running == old(running)
      ensures ok == (name in old(windows))
      ensures windows == old(windows) - {name}
      ensures ok ==> var w := old(windows)[name];
        && !w.valid && w.hwnd == NULL
        && w.visible == old(w.visible) && w.title == old(w.title)
        && cls.atom == (if old(w.valid) then 0 else old(cls.atom))
      ensures !ok ==> unchanged(cls)
      ensures forall n :: n in windows ==> unchanged(windows[n])
    {
      if name in windows {
        var w := windows[name];
        w.Destroy();
        windows := windows - {name};
        return true;
      }
      return false;
    }

    /** Destroys and removes the entry holding `window`; null or an unknown
        window yields false with nothing changed. */
    method DestroyWindowRef(window: Win32Window?) returns (ok: bool)
      requires Valid()
      modifies this, windows.Values, cls
      ensures Valid() && running == old(running)
      ensures ok == (window != null && window in old(windows).Values)
      ensures windows == map n | n in old(windows) && old(windows)[n] != window :: old(windows)[n]
      ensures ok ==>
        && !window.valid && window.hwnd == NULL
        && window.visible == old(window.visible) && window.title == old(window.title)
        && cls.atom == (if old(window.valid) then 0 else old(cls.atom))
      ensures !ok ==> windows == old(windows) && unchanged(cls)
      ensures forall w :: w in old(windows).Values && w != window ==> unchanged(w)
    {
      if window == null {
        return false;
      }
      var keys := windows.Keys;
      while keys != {}
        invariant keys <= windows.Keys
        invariant windows == old(windows)
        invariant forall n :: n in windows && n !in keys ==> windows[n] != window
        decreases keys
      {
        var k :| k in keys;
        if windows[k] == window {
          window.Destroy();
          ghost var before := windows;
          windows := windows - {k};
          assert forall n :: n in before && n != k ==> before[n] != window;
          return true;
        }
        keys := keys - {k};
      }
      assert forall n :: n in windows ==> windows[n] != window;
      return false;
    }

    method GetWindow(name: string) returns (r: Win32Window?)
      ensures name in windows ==> r == windows[name]
      ensures name !in windows ==> r == null
    {
      if name in windows {
        return windows[name];
      }
      return null;
    }

    method HasWindow(name: string) returns (b: bool)
      ensures b <==> name in windows
    {
      b := name in windows;
    }

    method GetWindowCount() returns (n: nat)
      ensures n == |windows|
    {
      n := |windows|;
    }

    /** Every registered name exactly once, in no particular order. */
    method GetWindowNames() returns (names: seq<string>)
      ensures |names| == |windows|
      ensures forall n :: n in names <==> n in windows
      ensures forall i, j :: 0 <= i < j < |names| ==> names[i] != names[j]
    {
      names := [];
      var keys := windows.Keys;
      while keys != {}
        invariant keys <= windows.Keys
        invariant forall n :: n in names <==> n in windows && n !in keys
        invariant forall i, j :: 0 <= i < j < |names| ==> names[i] != names[j]
        invariant |names| + |keys| == |windows|
        decreases keys
      {
        var k :| k in keys;
        names := names + [k];
        keys := keys - {k};
      }
    }

    method ShowAllWindows()
      requires Valid()
      modifies windows.Values
      ensures Valid()
      ensures forall w :: w in windows.Values ==>
        && w.visible == (old(w.visible) || w.valid)
        && w.valid == old(w.valid) && w.hwnd == old(w.hwnd) && w.title == old(w.title)
    {
      var keys := windows.Keys;
      while keys != {}
        invariant keys <= windows.Keys
        invariant Valid()
        invariant forall n :: n in windows ==>
          && windows[n].valid == old(windows[n].valid) && windows[n].hwnd == old(windows[n].hwnd)
          && windows[n].title == old(windows[n].title)
        invariant forall n :: n in windows ==>
          windows[n].visible == (if n in keys then old(windows[n].visible)
                                 else old(windows[n].visible) || windows[n].valid)
        decreases keys
      {
        var k :| k in keys;
        windows[k].Show();
        keys := keys - {k};
      }
    }

    method HideAllWindows()
      requires Valid()
      modifies windows.Values
      ensures Valid()
      ensures forall w :: w in windows.Values ==>
        && w.visible == (old(w.visible) && !w.valid)
        && w.valid == old(w.valid) && w.hwnd == old(w.hwnd) && w.title == old(w.title)
    {
      var keys := windows.Keys;
      while keys != {}
        invariant keys <= windows.Keys
        invariant Valid()
        invariant forall n :: n in windows ==>
          && windows[n].valid == old(windows[n].valid) && windows[n].hwnd == old(windows[n].hwnd)
          && windows[n].title == old(windows[n].title)
        invariant forall n :: n in windows ==>
          windows[n].visible == (if n in keys then old(windows[n].visible)
                                 else old(windows[n].visible) && !windows[n].valid)
        decreases keys
      {
        var k :| k in keys;
        windows[k].Hide();
        keys := keys - {k};
      }
    }

    /** Forwards Update to every window; `updated` names the windows whose
        UpdateWindow call is issued: exactly the registered valid ones. No
        modelled state changes. */
    method UpdateAllWindows() returns (updated: set<string>)
      requires Valid()
      ensures updated == set n | n in windows && windows[n].valid
    {
      updated := {};
      var keys := windows.Keys;
      while keys != {}
        invariant keys <= windows.Keys
        invariant updated == set n | n in windows.Keys - keys && windows[n].valid
        decreases keys
      {
        var k :| k in keys;
        var u := windows[k].Update();
        if u {
          updated := updated + {k};
        }
        keys := keys - {k};
      }
    }

    /** Stops the main loop, destroys every window and empties the registry. */
    method Exit()
      requires Valid()
      modifies this, windows.Values, cls
      ensures Valid()
      ensures !running && windows == map[]
      ensures forall w :: w in old(windows).Values ==>
        && !w.valid && w.hwnd == NULL
        && w.visible == old(w.visible) && w.title == old(w.title)
      ensures cls.atom == (if exists w :: w in old(windows).Values && old(w.valid) then 0 else old(cls.atom))
    {
      running := false;
      DestroyAll(windows.Values, cls);
      windows := map[];
    }
  }

  /** HasWindow and GetWindow agree: a name is present exactly when the
      lookup yields a window. */
  method HasWindowMatchesGetWindow(wm: WindowManager, name: string) returns (has: bool, found: Win32Window?)
    ensures has <==> found != null
  {
    has := wm.HasWindow(name);
    found := wm.GetWindow(name);
  }

  /** A second CreateWindow under a taken name fails and the count stays at 1. */
  method DuplicateNameScenario(registered: nat, h1: Handle, h2: Handle)
    returns (second: Win32Window?, count: nat)
    requires h1 != NULL
    ensures second == null && count == 1
  {
    var cls := new WindowClass();
    var wm := new WindowManager(cls);
    var first := wm.CreateWindow("A", "first", 0, 0, 400, 300, registered, h1);
    second := wm.CreateWindow("A", "second", 300, 200, 400, 300, registered, h2);
    count := wm.GetWindowCount();
  }
}

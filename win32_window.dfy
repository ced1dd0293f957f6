/** The Win32 window wrapper: a small state machine over its handle, title,
    visibility and validity flags, sharing one process-wide window-class
    registration atom with every other window. Native calls
    (RegisterClassEx, CreateWindowEx, ShowWindow, ...) are replaced by their
    results, passed in as parameters. */
module Win32 {
  import opened Common

  /** The static `window_class_atom_`, shared by all windows of a process. */
  class WindowClass {
    var atom: nat

    constructor ()
      ensures atom == 0
    {
      atom := 0;
    }
  }

  /** The atom after RegisterWindowClass, given what RegisterClassEx returns. */
  function RegisteredAtom(atom: nat, registered: nat): (r: nat)
    ensures atom != 0 ==> r == atom
    ensures atom == 0 ==> r == registered
  {
    if atom == 0 then registered else atom
  }

  class Win32Window {
    const cls: WindowClass
    var hwnd: Handle
    var title: string
    var visible: bool
    var valid: bool

    /** The flag `valid_` is set exactly when a native handle is held. */
    ghost predicate Valid()
      reads this
    {
      valid <==> hwnd != NULL
    }

    /** A fresh window: not valid, not visible, null handle, empty title. */
    constructor (cls: WindowClass)
      ensures Valid()
      ensures this.cls == cls
      ensures hwnd == NULL && !visible && !valid && title == ""
    {
      this.cls := cls;
      hwnd := NULL;
      title := "";
      visible := false;
      valid := false;
    }

    /** Registers the class only while the shared atom is 0; `registered`
        is the value RegisterClassEx returns (0 on failure). */
    method RegisterWindowClass(registered: nat)
      modifies cls`atom
      ensures cls.atom == RegisteredAtom(old(cls.atom), registered)
    {
      if cls.atom == 0 {
        cls.atom := registered;
      }
    }

    /** Unregisters the class whenever the shared atom is non-zero. */
    method UnregisterWindowClass()
      modifies cls`atom
      ensures cls.atom == 0
    {
      if cls.atom != 0 {
        cls.atom := 0;
      }
    }

    /** Stores the title, registers the class, then asks for a native window;
        `created` is the handle CreateWindowEx returns (NULL on failure).
        The position and size go to the native call only. */
    method Create(title: string, x: int, y: int, width: int, height: int,
                  registered: nat, created: Handle) returns (ok: bool)
      requires Valid()
      modifies this, cls
      ensures Valid()
      ensures old(valid) ==> !ok && unchanged(this) && unchanged(cls)
      ensures !old(valid) ==>
        && ok == (created != NULL)
        && valid == ok && hwnd == created
        && this.title == title
        && visible == old(visible)
        && cls.atom == RegisteredAtom(old(cls.atom), registered)
    {
      if valid {
        return false;
      }
      this.title := title;
      RegisterWindowClass(registered);
      hwnd := created;
      if hwnd == NULL {
        return false;
      }
      valid := true;
      return true;
    }

    /** Tears down a live window and unregisters the shared class; a window
        that is not live is left as it is. */
    method Destroy()
      requires Valid()
      modifies this`hwnd, this`valid, cls`atom
      ensures Valid()
      ensures !valid && hwnd == NULL
      ensures old(valid) ==> cls.atom == 0
      ensures !old(valid) ==> cls.atom == old(cls.atom)
    {
      if valid && hwnd != NULL {
        hwnd := NULL;
        valid := false;
        UnregisterWindowClass();
      }
    }

    method Show()
      requires Valid()
      modifies this`visible
      ensures visible == (old(visible) || valid)
    {
      if valid && hwnd != NULL {
        visible := true;
      }
    }

    method Hide()
      requires Valid()
      modifies this`visible
      ensures visible == (old(visible) && !valid)
    {
      if valid && hwnd != NULL {
        visible := false;
      }
    }

    /** Update forwards to the native UpdateWindow only for a valid window with
        a handle; `updated` says whether that call is issued. No modelled state
        changes. */
    method Update() returns (updated: bool)
      requires Valid()
      ensures updated <==> valid
      ensures updated ==> hwnd != NULL
    {
      updated := valid && hwnd != NULL;
    }

    method IsVisible() returns (b: bool)
      ensures b == visible
    {
      b := visible;
    }

    method IsValid() returns (b: bool)
      requires Valid()
      ensures b == valid
      ensures b <==> hwnd != NULL
    {
      b := valid && hwnd != NULL;
    }

    /** The stored title changes whether or not the window is live. */
    method SetTitle(title: string)
      modifies this`title
      ensures this.title == title
    {
      this.title := title;
    }

    method GetTitle() returns (t: string)
      ensures t == title
    {
      t := title;
    }
  }

  /** Two windows share the atom: destroying one unregisters the class (atom
      0) although the other window is still live. */
  method SharedAtomScenario(registered: nat, h1: Handle, h2: Handle)
    returns (atomAfter: nat, otherStillValid: bool)
    requires registered != 0 && h1 != NULL && h2 != NULL
    ensures atomAfter == 0 && otherStillValid
  {
    var cls := new WindowClass();
    var a := new Win32Window(cls);
    var b := new Win32Window(cls);
    var okA := a.Create("a", 0, 0, 100, 100, registered, h1);
    var okB := b.Create("b", 0, 0, 100, 100, registered, h2);
    assert cls.atom == registered;
    a.Destroy();
    atomAfter := cls.atom;
    otherStillValid := b.IsValid();
  }

  /** A failed native creation still replaces the title and leaves the window
      invalid; a second Destroy changes nothing. */
  method FailedCreateScenario(registered: nat)
    returns (title: string, valid: bool, validAfterTwoDestroys: bool)
    ensures title == "new" && !valid && !validAfterTwoDestroys
  {
    var cls := new WindowClass();
    var w := new Win32Window(cls);
    var ok := w.Create("new", 0, 0, 10, 10, registered, NULL);
    title := w.GetTitle();
    valid := w.IsValid();
    w.Destroy();
    w.Destroy();
    validAfterTwoDestroys := w.IsValid();
  }
}

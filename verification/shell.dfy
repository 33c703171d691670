/**
 * The desktop shell's settings logic: parsing the shortcut's modifier and
 * key names, the shortcut chosen at startup, the defaults used when the
 * settings store has nothing usable, and the order of the steps that
 * replace the recording shortcut.
 *
 * The settings store is given by what a lookup finds (`Stored`); the
 * global-shortcut service and the store's write and save are represented
 * by the state they change and by whether each step fails.
 */
module Shell {
  import opened Common

  /**
   * One character of Rust's `to_uppercase`. ASCII letters are raised; the
   * non-ASCII characters whose upper case is made of ASCII letters only
   * are listed; any other character is kept, which leaves it non-ASCII
   * exactly when its true upper case contains a non-ASCII character, and
   * that is all the comparisons with ASCII names below depend on.
   */
  function UpperChar(c: char): (u: string)
    ensures 'a' <= c <= 'z' ==> u == [(c as int - 32) as char]
  {
    if 'a' <= c <= 'z' then [(c as int - 32) as char]
    else if c == '\U{0131}' then "I"      // dotless i
    else if c == '\U{017F}' then "S"      // long s
    else if c == '\U{00DF}' then "SS"     // sharp s
    else if c == '\U{FB00}' then "FF"
    else if c == '\U{FB01}' then "FI"
    else if c == '\U{FB02}' then "FL"
    else if c == '\U{FB03}' then "FFI"
    else if c == '\U{FB04}' then "FFL"
    else if c == '\U{FB05}' || c == '\U{FB06}' then "ST"
    else [c]
  }

  /** Rust's `str::to_uppercase`, as far as the names below can tell. */
  function Upper(s: string): (u: string)
    ensures |u| >= |s|
  {
    if s == [] then [] else UpperChar(s[0]) + Upper(s[1..])
  }

  /** On ASCII text, upper-casing raises each lower-case letter in place and keeps every other character. */
  lemma {:induction false} UpperAscii(s: string)
    requires forall i :: 0 <= i < |s| ==> s[i] < '\U{0080}'
    ensures |Upper(s)| == |s|
    ensures forall i :: 0 <= i < |s| ==>
      Upper(s)[i] == if 'a' <= s[i] <= 'z' then (s[i] as int - 32) as char else s[i]
    decreases |s|
  {
    if s != [] {
      assert forall i :: 0 <= i < |s[1..]| ==> s[1..][i] < '\U{0080}' by {
        forall i | 0 <= i < |s[1..]| ensures s[1..][i] < '\U{0080}' { assert s[1..][i] == s[i + 1]; }
      }
      UpperAscii(s[1..]);
      assert s[0] < '\U{0080}';
      assert |UpperChar(s[0])| == 1;
      forall i | 0 <= i < |s|
        ensures Upper(s)[i] == if 'a' <= s[i] <= 'z' then (s[i] as int - 32) as char else s[i]
      {
        if i > 0 { assert Upper(s)[i] == Upper(s[1..])[i - 1] && s[1..][i - 1] == s[i]; }
      }
    }
  }

  datatype Modifier = Alt | Control | Shift | Meta

  /** The modifier a name stands for, if any. */
  function ModifierOf(name: string): (m: Option<Modifier>)
    ensures m == Some(Alt) <==> Upper(name) in {"ALT", "OPTION"}
    ensures m == Some(Control) <==> Upper(name) in {"CTRL", "CONTROL"}
    ensures m == Some(Shift) <==> Upper(name) == "SHIFT"
    ensures m == Some(Meta) <==> Upper(name) in {"META", "SUPER", "CMD", "COMMAND"}
  {
    var u := Upper(name);
    if u == "ALT" || u == "OPTION" then Some(Alt)
    else if u == "CTRL" || u == "CONTROL" then Some(Control)
    else if u == "SHIFT" then Some(Shift)
    else if u == "META" || u == "SUPER" || u == "CMD" || u == "COMMAND" then Some(Meta)
    else None
  }

  /** The union of what `f` maps the elements to; elements mapped to None add nothing. */
  function Collect<T, U>(f: T -> Option<U>, xs: seq<T>): set<U>
  {
    if xs == [] then {}
    else
      var y := f(xs[|xs| - 1]);
      Collect(f, xs[..|xs| - 1]) + (if y.Some? then {y.value} else {})
  }

  /** A value is collected exactly when some element maps to it. */
  lemma {:induction false} CollectMembers<T, U>(f: T -> Option<U>, xs: seq<T>, u: U)
    ensures u in Collect(f, xs) <==> exists i :: 0 <= i < |xs| && f(xs[i]) == Some(u)
  {
    if xs != [] {
      var front := xs[..|xs| - 1];
      CollectMembers(f, front, u);
      if exists i :: 0 <= i < |front| && f(front[i]) == Some(u) {
        var i :| 0 <= i < |front| && f(front[i]) == Some(u);
        assert xs[i] == front[i];
      }
      if exists i :: 0 <= i < |xs| && f(xs[i]) == Some(u) {
        var i :| 0 <= i < |xs| && f(xs[i]) == Some(u);
        if i < |front| {
          assert front[i] == xs[i];
        }
      }
    }
  }

  /** The union of the modifiers the names stand for; unknown names add nothing. */
  function ModifiersOf(names: seq<string>): set<Modifier>
  {
    Collect(ModifierOf, names)
  }

  /** Order and repetition of the names do not matter. */
  lemma ModifiersIgnoreOrder(a: seq<string>, b: seq<string>)
    requires forall x :: x in a <==> x in b
    ensures ModifiersOf(a) == ModifiersOf(b)
  {
    forall m | m in ModifiersOf(a) ensures m in ModifiersOf(b) {
      CollectMembers(ModifierOf, a, m);
      CollectMembers(ModifierOf, b, m);
      var i :| 0 <= i < |a| && ModifierOf(a[i]) == Some(m);
      assert a[i] in a;
      var j :| 0 <= j < |b| && b[j] == a[i];
    }
    forall m | m in ModifiersOf(b) ensures m in ModifiersOf(a) {
      CollectMembers(ModifierOf, a, m);
      CollectMembers(ModifierOf, b, m);
      var j :| 0 <= j < |b| && ModifierOf(b[j]) == Some(m);
      assert b[j] in b;
      var i :| 0 <= i < |a| && a[i] == b[j];
    }
  }

  /** `parse_modifiers`. */
  method ParseModifiers(names: seq<string>) returns (result: set<Modifier>)
    ensures result == ModifiersOf(names)
  {
    result := {};
    var i := 0;
    while i < |names|
      invariant 0 <= i <= |names|
      invariant result == ModifiersOf(names[..i])
    {
      assert names[..i + 1][..i] == names[..i];
      var m := ModifierOf(names[i]);
      if m.Some? {
        result := result + {m.value};
      }
      i := i + 1;
    }
    assert names[..i] == names;
  }

  datatype Code = F(n: nat) | Letter(c: char)

  predicate IsCapital(c: char) { 'A' <= c <= 'Z' }

  /** `parse_key`: exactly F1 to F12 and the single letters, in any case. */
  function ParseKey(key: string): (r: Option<Code>)
    ensures r.Some? && r.value.F? ==> 1 <= r.value.n <= 12
    ensures r.Some? && r.value.Letter? ==> Upper(key) == [r.value.c] && IsCapital(r.value.c)
    ensures |Upper(key)| == 1 && IsCapital(Upper(key)[0]) ==> r == Some(Letter(Upper(key)[0]))
    ensures r.None? <==>
      Upper(key) !in {"F1", "F2", "F3", "F4", "F5", "F6", "F7", "F8", "F9", "F10", "F11", "F12"}
      && !(|Upper(key)| == 1 && IsCapital(Upper(key)[0]))
  {
    var u := Upper(key);
    if u == "F1" then Some(F(1))
    else if u == "F2" then Some(F(2))
    else if u == "F3" then Some(F(3))
    else if u == "F4" then Some(F(4))
    else if u == "F5" then Some(F(5))
    else if u == "F6" then Some(F(6))
    else if u == "F7" then Some(F(7))
    else if u == "F8" then Some(F(8))
    else if u == "F9" then Some(F(9))
    else if u == "F10" then Some(F(10))
    else if u == "F11" then Some(F(11))
    else if u == "F12" then Some(F(12))
    else if |u| == 1 && IsCapital(u[0]) then Some(Letter(u[0]))
    else None
  }

  /** Case does not matter. */
  lemma ParseKeyIgnoresCase()
    ensures ParseKey("f5") == ParseKey("F5") == Some(F(5))
    ensures ParseKey("x") == Some(Letter('X'))
  {
    assert Upper("f5") == "F5";
    assert Upper("x") == "X";
  }

  /** The Unicode case mapping of `to_uppercase` reaches the ASCII keys too. */
  lemma ParseKeyDotlessI()
    ensures ParseKey("\U{0131}") == Some(Letter('I'))
  {
    assert Upper("\U{0131}") == "I";
  }

  /** Only F1 to F12 and single letters are keys. */
  lemma ParseKeyRejects()
    ensures ParseKey("F13") == None && ParseKey("") == None && ParseKey("AB") == None
  {
    assert Upper("F13") == "F13";
    assert Upper("AB") == "AB";
  }

  /** What a store lookup finds. */
  datatype Stored<T> = StoreUnavailable | Missing | Malformed | Present(value: T)

  datatype WindowPosition = WindowPosition(x: real, y: real)

  const DefaultPosition: WindowPosition := WindowPosition(100.0, 100.0)

  /** `load_window_position`: the stored position, or (100, 100). */
  function LoadWindowPosition(found: Stored<WindowPosition>): (p: WindowPosition)
    ensures found.Present? ==> p == found.value
    ensures !found.Present? ==> p == DefaultPosition
  {
    if found.Present? then found.value else DefaultPosition
  }

  datatype ShortcutConfig = ShortcutConfig(modifiers: seq<string>, key: string)
  datatype ShortcutsSettings = ShortcutsSettings(toggleRecording: Option<ShortcutConfig>)

  /** `get_shortcut_settings`: the stored settings, or the empty default. */
  function GetShortcutSettings(found: Stored<ShortcutsSettings>): (s: ShortcutsSettings)
    ensures found.Present? ==> s == found.value
    ensures !found.Present? ==> s == ShortcutsSettings(None)
  {
    if found.Present? then found.value else ShortcutsSettings(None)
  }

  datatype Shortcut = Shortcut(modifiers: set<Modifier>, code: Code)

  /**
   * The shortcut registered at startup: Alt+F5 when none is saved or the
   * saved value is unreadable; a saved shortcut with an unknown key keeps
   * its modifiers with F5. An unavailable store aborts the setup.
   */
  function StartupShortcut(found: Stored<ShortcutsSettings>): (r: Result<Shortcut, string>)
    ensures found.StoreUnavailable? <==> r.Err?
    ensures found.Missing? || found.Malformed? || (found.Present? && found.value.toggleRecording.None?) ==>
      r == Ok(Shortcut({Alt}, F(5)))
    ensures found.Present? && found.value.toggleRecording.Some? ==>
      var c := found.value.toggleRecording.value;
      r.Ok? && r.value.modifiers == ModifiersOf(c.modifiers)
      && r.value.code == (if ParseKey(c.key).Some? then ParseKey(c.key).value else F(5))
  {
    if found.StoreUnavailable? then Err("store unavailable")
    else
      var settings := if found.Present? then found.value else ShortcutsSettings(None);
      match settings.toggleRecording
      case Some(c) =>
        var code := ParseKey(c.key);
        Ok(Shortcut(ModifiersOf(c.modifiers), if code.Some? then code.value else F(5)))
      case None => Ok(Shortcut({Alt}, F(5)))
  }

  /**
   * A shortcut saved by a successful update is the one registered at the
   * next startup.
   */
  lemma UpdateThenStartup(modifiers: seq<string>, key: string)
    requires ParseKey(key).Some?
    ensures StartupShortcut(Present(ShortcutsSettings(Some(ShortcutConfig(modifiers, key)))))
         == Ok(Shortcut(ModifiersOf(modifiers), ParseKey(key).value))
  {
  }

  /**
   * The contents of "settings.json": the window position and the shortcut
   * settings live in one store, and a save writes all of it.
   */
  datatype Settings = Settings(position: Option<WindowPosition>, shortcuts: Option<ShortcutsSettings>)

  /** The global shortcuts and the settings store, in memory and on disk. */
  class ShortcutService {
    var registered: set<Shortcut>
    var memory: Settings
    var disk: Settings

    /** The store as loaded: memory starts as what the file holds. */
    constructor (registered: set<Shortcut>, disk: Settings)
      ensures this.registered == registered && this.disk == disk && memory == disk
    {
      this.registered := registered;
      this.disk := disk;
      memory := disk;
    }

    /** What a lookup of the window position finds in the open store. */
    function PositionFound(): (found: Stored<WindowPosition>)
      reads this
      ensures found.Present? <==> memory.position.Some?
      ensures found.Present? ==> found.value == memory.position.value
    {
      if memory.position.Some? then Present(memory.position.value) else Missing
    }

    /**
     * `save_window_position`: write the position into the store and save
     * it; a store that cannot be opened changes nothing, a failed save
     * leaves the write in memory only, and a successful save writes the
     * whole store, shortcut settings included.
     */
    method SaveWindowPosition(x: real, y: real, storeError: Option<string>, saveError: Option<string>)
      returns (r: Result<(), string>)
      modifies this
      ensures registered == old(registered)
      ensures storeError.Some? ==>
        r == Err(storeError.value) && memory == old(memory) && disk == old(disk)
      ensures storeError.None? && saveError.Some? ==>
        r == Err(saveError.value) && memory == old(memory).(position := Some(WindowPosition(x, y)))
        && disk == old(disk)
      ensures storeError.None? && saveError.None? ==>
        r == Ok(()) && memory == old(memory).(position := Some(WindowPosition(x, y))) && disk == memory
      ensures storeError.None? ==> LoadWindowPosition(PositionFound()) == WindowPosition(x, y)
    {
      if storeError.Some? {
        return Err(storeError.value);
      }
      memory := memory.(position := Some(WindowPosition(x, y)));
      if saveError.Some? {
        return Err(saveError.value);
      }
      disk := memory;
      r := Ok(());
    }

    /**
     * `update_shortcut`: an invalid key is rejected before anything
     * changes; then all shortcuts are unregistered, the new one is
     * registered, and the settings are written and saved, a successful
     * save writing the whole store, window position included. Each step
     * that fails ends the command with its error, keeping what the
     * earlier steps did.
     */
    method UpdateShortcut(modifiers: seq<string>, key: string,
                          unregisterError: Option<string>, registerError: Option<string>,
                          storeError: Option<string>, saveError: Option<string>)
      returns (r: Result<(), string>)
      modifies this
      ensures ParseKey(key).None? ==>
        r == Err("Invalid key") && registered == old(registered) && memory == old(memory) && disk == old(disk)
      ensures ParseKey(key).Some? ==>
        var shortcut := Shortcut(ModifiersOf(modifiers), ParseKey(key).value);
        var written := old(memory).(shortcuts := Some(ShortcutsSettings(Some(ShortcutConfig(modifiers, key)))));
        if unregisterError.Some? then
          r == Err(unregisterError.value)
          && registered == old(registered) && memory == old(memory) && disk == old(disk)
        else if registerError.Some? then
          r == Err(registerError.value) && registered == {} && memory == old(memory) && disk == old(disk)
        else if storeError.Some? then
          r == Err(storeError.value) && registered == {shortcut} && memory == old(memory) && disk == old(disk)
        else if saveError.Some? then
          r == Err(saveError.value) && registered == {shortcut} && memory == written && disk == old(disk)
        else
          r == Ok(()) && registered == {shortcut} && memory == written && disk == written
    {
      var mods := ParseModifiers(modifiers);
      var code := ParseKey(key);
      if code.None? {
        return Err("Invalid key");
      }
      var shortcut := Shortcut(mods, code.value);
      if unregisterError.Some? {
        return Err(unregisterError.value);
      }
      registered := {};
      if registerError.Some? {
        return Err(registerError.value);
      }
      registered := registered + {shortcut};
      if storeError.Some? {
        return Err(storeError.value);
      }
      memory := memory.(shortcuts := Some(ShortcutsSettings(Some(ShortcutConfig(modifiers, key)))));
      if saveError.Some? {
        return Err(saveError.value);
      }
      disk := memory;
      r := Ok(());
    }
  }
}

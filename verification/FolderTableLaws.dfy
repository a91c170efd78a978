/** What a row of the folder table asks for when it is edited by hand. */
module FolderTableLaws {
  import opened Text
  import opened NoteBody
  import opened MarkdownTable
  import opened VaultLayout
  import opened FolderTable

  /** The folder an ordered dictionary has for a key. */
  function Found<K(==)>(d: seq<(K, string)>, key: K): Option<string> {
    if d == [] then None else if d[0].0 == key then Some(d[0].1) else Found(d[1..], key)
  }

  lemma {:induction false} PutIs<K>(d: seq<(K, string)>, key: K, value: string, k: K)
    ensures Found(Put(d, key, value), k) == if k == key then Some(value) else Found(d, k)
  {
    if d != [] && d[0].0 != key {
      PutIs(d[1..], key, value, k);
      assert ([d[0]] + Put(d[1..], key, value))[1..] == Put(d[1..], key, value);
    } else if d != [] {
      assert ([(key, value)] + d[1..])[1..] == d[1..];
    }
  }

  /** The first cell, in lower case, when the row asks for anything: it has a folder, and is neither the
      header nor drawn with dashes and colons only. */
  function AskedFor(role: string, folder: string): Option<string> {
    var key := LowerAscii(role);
    if folder != "" && key != "role" && (role == "" || exists c | c in role :: c != '-' && c != ':') then Some(key) else None
  }

  /** The key of a role, as it is written in the table. */
  predicate Keys(r: Role, key: string) {
    match r
    case People => key == "people" case Contacts => key == "contacts" case Authors => key == "authors"
    case Organizations => key == "organizations" case Work => key == "work" case Administrative => key == "administrative"
    case Health => key == "health" case Home => key == "home" case Finance => key == "finance"
    case Travel => key == "travel" case AdministrativeGeneral => key == "administrative_general"
    case Thoughts => key == "thoughts" case Sources => key == "sources"
  }

  /** A key like `domain: name`. */
  ghost predicate DomainKey(key: string, name: string) {
    "domain:" <= key && name != "" && Strip(key[7..]) == name
  }

  lemma RuleIs(cell: string)
    ensures !IsRule(cell) <==> cell == "" || exists c | c in cell :: c != '-' && c != ':'
  {
    if !IsRule(cell) && cell != "" {
      var i :| 0 <= i < |cell| && cell[i] != '-' && cell[i] != ':';
      assert cell[i] in cell;
    }
  }

  lemma RoleNamedIs(key: string, r: Role)
    ensures RoleNamed(key) == Some(r) <==> Keys(r, key)
  {
    assert RoleName(r) == key <==> Keys(r, key);
    if RoleNamed(key).Some? && RoleNamed(key).value != r && Keys(r, key) { NamesDiffer(RoleNamed(key).value, r); }
    hide RoleName, Keys;
  }

  lemma NamesDiffer(r: Role, s: Role)
    requires r != s
    ensures RoleName(r) != RoleName(s)
  {
  }

  /** What one key does to the table. */
  lemma RoleSays(t: Table, key: string, folder: string, definition: string, r: Role, domain: string)
    ensures var after := TakeRole(t, key, folder, definition);
      && after.system == (if key in {"system", "system_dir"} then Some(folder) else t.system)
      && after.inbox == (if key in {"inbox", "inbox_dir"} then Some(folder) else t.inbox)
      && after.dashboards == (if key in {"dashboards", "dashboards_dir"} then Some(folder) else t.dashboards)
      && Found(after.content, r) == (if Keys(r, key) then Some(folder) else Found(t.content, r))
      && Found(after.domains, domain) == (if DomainKey(key, domain) then Some(folder) else Found(t.domains, domain))
      && after.customs == t.customs + (if key == "custom" then [(folder, definition)] else [])
  {
    RoleNamedIs(key, r);
    if RoleNamed(key).Some? {
      PutIs(t.content, RoleNamed(key).value, folder, r);
      RoleNamedIs(key, RoleNamed(key).value);
      NoOtherKey(key, RoleNamed(key).value);
    }
    if IsDomainKey(key) {
      PutIs(t.domains, Strip(key[7..]), folder, domain);
      assert key[0] == 'd' && key[6] == ':';
    }
    assert IsDomainKey(key) <==> "domain:" <= key;
    KeysApart(key, r);
    hide Put, Found, RoleNamed, Keys, Strip;
  }

  /** No key of a role is also one of a root, of a domain, or of the custom folders. */
  lemma NoOtherKey(key: string, r: Role)
    requires Keys(r, key)
    ensures key !in {"system", "system_dir", "inbox", "inbox_dir", "dashboards", "dashboards_dir", "custom"}
    ensures !("domain:" <= key)
  {
    assert key == RoleName(r);
    assert key[0] != "domain:"[0];
  }

  lemma KeysApart(key: string, r: Role)
    ensures key in {"system", "system_dir", "inbox", "inbox_dir", "dashboards", "dashboards_dir", "custom"} ==> !("domain:" <= key) && !Keys(r, key)
  {
    if Keys(r, key) { NoOtherKey(key, r); }
    if "domain:" <= key { assert key[2] == "domain:"[2] == 'm' && key[0] == "domain:"[0] == 'd'; }
  }

  /** What one row does, in any spelling of its key: it sets exactly the folder its key names, a later row
      over an earlier one, and a row of a custom folder adds one with its description. Other rows do nothing. */
  lemma RowSays(t: Table, role: string, folder: string, more: seq<string>, r: Role, domain: string)
    requires Clean(role) && Clean(folder) && forall i | 0 <= i < |more| :: Clean(more[i])
    ensures var (after, asked) := (TakeRow(t, RowOf([role, folder] + more)), AskedFor(role, folder));
      && after.system == (if asked in {Some("system"), Some("system_dir")} then Some(folder) else t.system)
      && after.inbox == (if asked in {Some("inbox"), Some("inbox_dir")} then Some(folder) else t.inbox)
      && after.dashboards == (if asked in {Some("dashboards"), Some("dashboards_dir")} then Some(folder) else t.dashboards)
      && Found(after.content, r) == (if asked.Some? && Keys(r, asked.value) then Some(folder) else Found(t.content, r))
      && Found(after.domains, domain) == (if asked.Some? && DomainKey(asked.value, domain) then Some(folder) else Found(t.domains, domain))
      && after.customs == t.customs + (if asked == Some("custom") then [(folder, if more == [] then "" else more[0])] else [])
  {
    hide Clean, Cells, RowOf, Found, Keys, DomainKey, TakeRole, IsRule, LowerAscii;
    var cells := [role, folder] + more;
    RowReadsBack(cells);
    RuleIs(role);
    RoleSays(t, LowerAscii(role), folder, if more == [] then "" else more[0], r, domain);
    assert TakeRow(t, RowOf(cells)) == TakeCells(t, cells);
  }

  /** A line that is no row of two cells at least does nothing. */
  lemma NoRowSaysNothing(t: Table, line: string)
    requires Strip(line) == "" || Strip(line)[0] != '|' || |SplitOn(StripBars(Strip(line)), '|')| < 2
    ensures TakeRow(t, line) == t
  {
    hide Strip, SplitOn, StripBars;
  }
}

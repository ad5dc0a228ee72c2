/** The tools a Responses client declares, under the flat names Claude is given for them.

    A string here is a Go string: each `char` stands for one byte. */
module ToolRegistry {
  import opened MapOrder
  import opened Sequences

  datatype Kind = FunctionKind | NamespaceKind | CustomKind | SearchKind

  /** `name` is the tool's own name, without its namespace. */
  datatype Spec = Spec(kind: Kind, name: string, namespace: string)

  /** A registration asked for: a flat name and what it stands for. */
  datatype Entry = Entry(flat: string, spec: Spec)

  datatype Option<T> = None | Some(value: T)

  /** `trim` takes blanks off, `lower` is the lower case, and `cloak` the name a tool wears on the way to
      Claude; `uncloak` is the fixed table of cloaked names, empty where it has none, and `restore` what is
      made of a name when no tool was declared. */
  datatype Spelling = Spelling(
    trim: string -> string,
    lower: string -> string,
    cloak: string -> string,
    uncloak: string -> string,
    restore: string -> string)

  const MAX_NAME := 64
  const SEARCH := "tool_search"

  // ---- flat names ------------------------------------------------------------------------------

  /** A joined name, cut and ended in a digest of the whole where it is too long. */
  function Shortened(digest: string -> string, full: string): string {
    if |full| <= MAX_NAME then full
    else
      var suffix := "__" + digest(full);
      var most := if |suffix| <= MAX_NAME then MAX_NAME - |suffix| else 0;
      full[..most] + suffix
  }

  function Joined(trim: string -> string, namespace: string, name: string): string {
    trim(namespace) + "__" + trim(name)
  }

  /** A namespace and a name as one name. */
  function FlattenNamespaceToolName(trim: string -> string, digest: string -> string, namespace: string,
                                    name: string): string {
    Shortened(digest, Joined(trim, namespace, name))
  }

  /** The first eight bytes of a hash, in hexadecimal, which no two names are taken to share. */
  ghost predicate Digests(digest: string -> string) {
    && (forall s :: |digest(s)| == 16)
    && (forall s, t :: digest(s) == digest(t) ==> s == t)
  }

  lemma ShortenedIs(digest: string -> string, full: string)
    requires Digests(digest) && |full| > MAX_NAME
    ensures |Shortened(digest, full)| == MAX_NAME
    ensures Shortened(digest, full)[..MAX_NAME - 18] == full[..MAX_NAME - 18]
    ensures Shortened(digest, full)[MAX_NAME - 16..] == digest(full)
  {
    var flat := Shortened(digest, full);
    assert |"__" + digest(full)| == 18;
    assert flat == full[..46] + "__" + digest(full);
    assert flat[..46] == full[..46] && flat[48..] == digest(full);
  }

  /** No flat name is longer than Claude allows, a short one is the joined name itself, and a cut one keeps
      its digest. */
  lemma FlatNamesFit(trim: string -> string, digest: string -> string, namespace: string, name: string)
    requires Digests(digest)
    ensures var full, flat := Joined(trim, namespace, name), FlattenNamespaceToolName(trim, digest, namespace, name);
            && |flat| <= MAX_NAME
            && (|full| <= MAX_NAME ==> flat == full)
            && (|full| > MAX_NAME ==> |flat| == MAX_NAME && flat[MAX_NAME - 16..] == digest(full))
  {
    if |Joined(trim, namespace, name)| > MAX_NAME {
      ShortenedIs(digest, Joined(trim, namespace, name));
    }
  }

  /** A joined name that happens to be what another is cut to. */
  predicate Mimics(digest: string -> string, full: string, other: string) {
    |full| == MAX_NAME && |other| > MAX_NAME && full == Shortened(digest, other)
  }

  /** Two tools share a flat name if and only if their namespaces and names join alike, or one of the
      joined names is what the other is cut to. */
  lemma FlatNamesCollideIff(trim: string -> string, digest: string -> string,
                            namespace: string, name: string, otherSpace: string, otherName: string)
    requires Digests(digest)
    ensures var full, other := Joined(trim, namespace, name), Joined(trim, otherSpace, otherName);
            FlattenNamespaceToolName(trim, digest, namespace, name)
            == FlattenNamespaceToolName(trim, digest, otherSpace, otherName)
            <==> full == other || Mimics(digest, full, other) || Mimics(digest, other, full)
  {
    var full, other := Joined(trim, namespace, name), Joined(trim, otherSpace, otherName);
    if |full| > MAX_NAME {
      ShortenedIs(digest, full);
    }
    if |other| > MAX_NAME {
      ShortenedIs(digest, other);
    }
  }

  /** A namespace that cannot be mistaken for a longer or a shorter one. */
  predicate PlainSpace(s: string) {
    (forall i :: 0 <= i < |s| - 1 ==> s[i] != '_' || s[i + 1] != '_') && (s != "" ==> s[|s| - 1] != '_')
  }

  lemma JoinApart(a: string, x: string, b: string, y: string)
    requires PlainSpace(a) && PlainSpace(b) && a + "__" + x == b + "__" + y
    ensures a == b && x == y
  {
    if |a| < |b| {
      SpaceShorter(a, x, b, y);
    } else if |b| < |a| {
      SpaceShorter(b, y, a, x);
    } else {
      var full := a + "__" + x;
      assert a == full[..|a|] && b == (b + "__" + y)[..|a|];
      assert x == full[|a| + 2..] && y == (b + "__" + y)[|a| + 2..];
    }
  }

  lemma SpaceShorter(a: string, x: string, b: string, y: string)
    requires |a| < |b| && a + "__" + x == b + "__" + y
    ensures !PlainSpace(b)
  {
    var full, other := a + "__" + x, b + "__" + y;
    assert full[|a|] == '_' && full[|a| + 1] == '_';
    assert other[|a|] == b[|a|];
    if |a| + 1 < |b| {
      assert other[|a| + 1] == b[|a| + 1];
    }
  }

  /** Between plain namespaces, and unless a joined name is exactly as long as Claude allows, tools share a
      flat name only if they have the same namespace and the same name. */
  lemma PlainNamesApart(trim: string -> string, digest: string -> string,
                        namespace: string, name: string, otherSpace: string, otherName: string)
    requires Digests(digest) && PlainSpace(trim(namespace)) && PlainSpace(trim(otherSpace))
    requires |Joined(trim, namespace, name)| != MAX_NAME && |Joined(trim, otherSpace, otherName)| != MAX_NAME
    ensures (FlattenNamespaceToolName(trim, digest, namespace, name)
             == FlattenNamespaceToolName(trim, digest, otherSpace, otherName))
            <==> trim(namespace) == trim(otherSpace) && trim(name) == trim(otherName)
  {
    FlatNamesCollideIff(trim, digest, namespace, name, otherSpace, otherName);
    if Joined(trim, namespace, name) == Joined(trim, otherSpace, otherName) {
      JoinApart(trim(namespace), trim(name), trim(otherSpace), trim(otherName));
    }
  }

  /** Where the separator stands in a namespace or in a name, two different tools do share one. */
  lemma FlatNamesCollide(trim: string -> string, digest: string -> string, a: string, b: string, c: string)
    requires trim(a + "__" + b) == a + "__" + b && trim(c) == c && trim(a) == a && trim(b + "__" + c) == b + "__" + c
    ensures FlattenNamespaceToolName(trim, digest, a + "__" + b, c)
         == FlattenNamespaceToolName(trim, digest, a, b + "__" + c)
    ensures a + "__" + b != a
  {
    assert a + "__" + b + "__" + c == a + "__" + (b + "__" + c);
  }

  // ---- what names resolve to -------------------------------------------------------------------

  /** The first tool registered under a flat name. */
  function First(entries: seq<Entry>, flat: string): Option<Spec> {
    if entries == [] then None
    else if First(entries[..|entries| - 1], flat).Some? then First(entries[..|entries| - 1], flat)
    else if entries[|entries| - 1].flat == flat then Some(entries[|entries| - 1].spec)
    else None
  }

  /** `cloak` is the name a tool wears on the way to Claude, where that is another one. */
  predicate Wears(cloak: string -> string, flat: string, alias: string) {
    cloak(flat) == alias && alias != flat && alias != ""
  }

  /** The first tool that wears `alias`, of those registered under a new name. */
  function FirstWearing(cloak: string -> string, entries: seq<Entry>, alias: string): Option<Spec> {
    if entries == [] then None
    else
      var front, last := entries[..|entries| - 1], entries[|entries| - 1];
      if FirstWearing(cloak, front, alias).Some? then FirstWearing(cloak, front, alias)
      else if Wears(cloak, last.flat, alias) && First(front, last.flat).None? then Some(last.spec)
      else None
  }

  /** A name stands for the first tool registered under it; failing that, for the first that wears it. */
  function Meaning(cloak: string -> string, entries: seq<Entry>, name: string): Option<Spec> {
    if First(entries, name).Some? then First(entries, name) else FirstWearing(cloak, entries, name)
  }

  /** The names the client knows: those of the tools exported, bare and flat. */
  function ClientNames(trim: string -> string, entries: seq<Entry>): set<string> {
    if entries == [] then {}
    else
      var front, last := entries[..|entries| - 1], entries[|entries| - 1];
      ClientNames(trim, front)
      + (if First(front, last.flat).None? then {trim(last.flat), trim(last.spec.name)} - {""} else {})
  }

  /** Which of the client's names a name may be taken for.  More than one may wear it; then a Go map
      decides. */
  ghost predicate Resolves(spelling: Spelling, known: set<string>, name: string, r: string) {
    if known == {} then r == spelling.restore(name)
    else if name in known then r == name
    else if spelling.lower(name) in known then r == spelling.lower(name)
    else if spelling.uncloak(name) in known then r == spelling.uncloak(name)
    else if exists n :: n in known && spelling.cloak(n) == name then r in known && spelling.cloak(r) == name
    else r == name
  }

  /** What a trimmed name stands for: as it is, then as the client's name it was taken for, then in lower
      case. */
  function Lookup(spelling: Spelling, entries: seq<Entry>, name: string, r: string): Option<Spec> {
    if name == "" then None
    else if Meaning(spelling.cloak, entries, name).Some? then Meaning(spelling.cloak, entries, name)
    else if r != "" && r != name && Meaning(spelling.cloak, entries, r).Some? then Meaning(spelling.cloak, entries, r)
    else if spelling.lower(name) != name then Meaning(spelling.cloak, entries, spelling.lower(name))
    else None
  }

  // ---- the registry ----------------------------------------------------------------------------

  class ToolContext {
    const spelling: Spelling
    var flatToSpec: map<string, Spec>
    var claudeTools: seq<string>
    var seenFlatNames: set<string>
    var clientNames: set<string>
    ghost var entries: seq<Entry>

    ghost predicate Valid()
      reads this
    {
      Tied(spelling, State(), entries)
    }

    function State(): Fields
      reads this
    {
      Fields(flatToSpec, claudeTools, seenFlatNames, clientNames)
    }

    constructor (spelling: Spelling)
      ensures Valid() && entries == [] && this.spelling == spelling
    {
      this.spelling := spelling;
      flatToSpec, claudeTools, seenFlatNames, clientNames, entries := map[], [], {}, {}, [];
    }

    /** `rememberClientName`. */
    method RememberClientName(name: string)
      modifies `clientNames
      ensures clientNames == old(clientNames) + ({spelling.trim(name)} - {""})
    {
      if spelling.trim(name) != "" {
        clientNames := clientNames + {spelling.trim(name)};
      }
    }

    /** `addClaudeTool`: the first tool of a name is exported, and its alias noted where that is free. */
    method AddClaudeTool(flat: string, spec: Spec)
      requires Valid()
      modifies this
      ensures Valid() && entries == (if flat == "" then old(entries) else old(entries) + [Entry(flat, spec)])
    {
      if flat == "" {
        return;
      }
      AddingTies(spelling, State(), entries, flat, spec);
      entries := entries + [Entry(flat, spec)];
      if flat in seenFlatNames {
        return;
      }
      Export(flat, spec);
    }

    method Export(flat: string, spec: Spec)
      requires flat !in seenFlatNames
      modifies `flatToSpec, `claudeTools, `seenFlatNames, `clientNames
      ensures State() == Added(spelling, old(State()), flat, spec)
    {
      seenFlatNames := seenFlatNames + {flat};
      flatToSpec := flatToSpec[flat := spec];
      RememberClientName(flat);
      RememberClientName(spec.name);
      var cloaked := spelling.cloak(flat);
      if cloaked != "" && cloaked != flat {
        if cloaked !in flatToSpec {
          flatToSpec := flatToSpec[cloaked := spec];
        }
      }
      claudeTools := claudeTools + [flat];
    }

    method AddFunctionTool(digest: string -> string, name: string, namespace: string)
      requires Valid()
      modifies this
      ensures Valid()
      ensures entries == old(entries) + FunctionEntries(spelling.trim, digest, name, namespace)
    {
      if name == "" {
        return;
      }
      if namespace != "" {
        AddClaudeTool(FlattenNamespaceToolName(spelling.trim, digest, namespace, name),
                      Spec(NamespaceKind, name, namespace));
      } else {
        AddClaudeTool(name, Spec(FunctionKind, name, ""));
      }
    }

    method AddCustomTool(name: string)
      requires Valid()
      modifies this
      ensures Valid()
      ensures entries == old(entries) + (if name == "" then [] else [Entry(name, Spec(CustomKind, name, ""))])
    {
      if name == "" {
        return;
      }
      AddClaudeTool(name, Spec(CustomKind, name, ""));
    }

    method AddToolSearchTool()
      requires Valid()
      modifies this
      ensures Valid() && entries == old(entries) + [Entry(SEARCH, Spec(SearchKind, SEARCH, ""))]
    {
      AddClaudeTool(SEARCH, Spec(SearchKind, SEARCH, ""));
    }

    /** `resolveOpenAIToolNameFromClaude`, which walks the client's names in whatever order the map yields
        them. */
    method Resolve(name: string) returns (r: string)
      ensures Resolves(spelling, clientNames, name, r)
    {
      if clientNames == {} {
        return spelling.restore(name);
      }
      if name in clientNames {
        return name;
      }
      if spelling.lower(name) in clientNames {
        return spelling.lower(name);
      }
      if spelling.uncloak(name) in clientNames {
        return spelling.uncloak(name);
      }
      var left := clientNames;
      while left != {}
        invariant left <= clientNames
        invariant forall n :: n in clientNames && n !in left ==> spelling.cloak(n) != name
        decreases left
      {
        SomeLeft(left);
        var n :| n in left;
        if spelling.cloak(n) == name {
          return n;
        }
        left := left - {n};
      }
      return name;
    }

    /** `lookupSpec`. */
    method LookupSpec(claudeName: string) returns (found: Option<Spec>, ghost r: string)
      requires Valid()
      ensures Resolves(spelling, clientNames, spelling.trim(claudeName), r)
      ensures found == Lookup(spelling, entries, spelling.trim(claudeName), r)
    {
      var name := spelling.trim(claudeName);
      var resolved := Resolve(name);
      r := resolved;
      TiedLookup(spelling, State(), entries, name);
      TiedLookup(spelling, State(), entries, resolved);
      TiedLookup(spelling, State(), entries, spelling.lower(name));
      if name == "" {
        return None, r;
      }
      if name in flatToSpec {
        return Some(flatToSpec[name]), r;
      }
      if resolved != "" && resolved != name && resolved in flatToSpec {
        return Some(flatToSpec[resolved]), r;
      }
      if spelling.lower(name) != name && spelling.lower(name) in flatToSpec {
        return Some(flatToSpec[spelling.lower(name)]), r;
      }
      return None, r;
    }
  }

  function FunctionEntries(trim: string -> string, digest: string -> string,
                           name: string, namespace: string): seq<Entry> {
    if name == "" then []
    else if namespace != "" then
      [Entry(FlattenNamespaceToolName(trim, digest, namespace, name), Spec(NamespaceKind, name, namespace))]
    else [Entry(name, Spec(FunctionKind, name, ""))]
  }

  /** The registry's fields, as a value. */
  datatype Fields = Fields(
    flatToSpec: map<string, Spec>,
    claudeTools: seq<string>,
    seenFlatNames: set<string>,
    clientNames: set<string>)

  /** Maps and lists say what the registrations say. */
  ghost predicate Tied(spelling: Spelling, f: Fields, entries: seq<Entry>) {
    var tied :=
      && (forall name :: Stands(spelling.cloak, f.flatToSpec, entries, name))
      && (forall flat :: flat in f.seenFlatNames <==> First(entries, flat).Some?)
      && (forall flat :: flat in f.claudeTools <==> flat in f.seenFlatNames)
      && (forall i, j :: 0 <= i < j < |f.claudeTools| ==> f.claudeTools[i] != f.claudeTools[j])
      && "" !in f.claudeTools
      && f.clientNames == ClientNames(spelling.trim, entries);
    tied
  }

  predicate Stands(cloak: string -> string, flatToSpec: map<string, Spec>, entries: seq<Entry>, name: string) {
    (if name in flatToSpec then Some(flatToSpec[name]) else None) == Meaning(cloak, entries, name)
  }

  lemma AppendEntry(cloak: string -> string, entries: seq<Entry>, e: Entry, name: string)
    ensures First(entries + [e], name)
         == if First(entries, name).Some? then First(entries, name) else if e.flat == name then Some(e.spec) else None
    ensures FirstWearing(cloak, entries + [e], name)
         == if FirstWearing(cloak, entries, name).Some? then FirstWearing(cloak, entries, name)
            else if Wears(cloak, e.flat, name) && First(entries, e.flat).None? then Some(e.spec) else None
  {
    assert (entries + [e])[..|entries|] == entries;
  }

  /** The fields after one registration. */
  function Added(spelling: Spelling, f: Fields, flat: string, spec: Spec): Fields {
    if flat in f.seenFlatNames then f
    else
      var named, cloaked := f.flatToSpec[flat := spec], spelling.cloak(flat);
      Fields(if cloaked != "" && cloaked != flat && cloaked !in named then named[cloaked := spec] else named,
             f.claudeTools + [flat], f.seenFlatNames + {flat},
             f.clientNames + ({spelling.trim(flat)} - {""}) + ({spelling.trim(spec.name)} - {""}))
  }

  /** One registration keeps the registry tied. */
  lemma AddingTies(spelling: Spelling, f: Fields, entries: seq<Entry>, flat: string, spec: Spec)
    requires Tied(spelling, f, entries) && flat != ""
    ensures Tied(spelling, Added(spelling, f, flat, spec), entries + [Entry(flat, spec)])
  {
    var after, all := Added(spelling, f, flat, spec), entries + [Entry(flat, spec)];
    forall name
      ensures Stands(spelling.cloak, after.flatToSpec, all, name)
      ensures First(all, name).Some? <==> First(entries, name).Some? || name == flat
    {
      assert Stands(spelling.cloak, f.flatToSpec, entries, name);
      assert Stands(spelling.cloak, f.flatToSpec, entries, flat);
      AppendEntry(spelling.cloak, entries, Entry(flat, spec), name);
    }
    Front(entries, Entry(flat, spec));
  }

  lemma TiedLookup(spelling: Spelling, f: Fields, entries: seq<Entry>, name: string)
    requires Tied(spelling, f, entries)
    ensures (if name in f.flatToSpec then Some(f.flatToSpec[name]) else None) == Meaning(spelling.cloak, entries, name)
  {
    assert Stands(spelling.cloak, f.flatToSpec, entries, name);
  }

  // ---- what the registry promises --------------------------------------------------------------

  /** After any registrations the exported names are distinct, and each stands for the first tool
      registered under it: neither a later tool nor another's alias ever takes its place. */
  lemma ExportsResolve(spelling: Spelling, f: Fields, entries: seq<Entry>, i: nat)
    requires Tied(spelling, f, entries) && i < |f.claudeTools|
    ensures f.claudeTools[i] in f.flatToSpec && Some(f.flatToSpec[f.claudeTools[i]]) == First(entries, f.claudeTools[i])
    ensures forall j :: 0 <= j < |f.claudeTools| && j != i ==> f.claudeTools[j] != f.claudeTools[i]
  {
    assert f.claudeTools[i] in f.claudeTools;
    TiedLookup(spelling, f, entries, f.claudeTools[i]);
  }

  /** Registered is what has a first registration; later ones change nothing. */
  lemma {:induction false} FirstStays(entries: seq<Entry>, more: seq<Entry>, flat: string)
    requires First(entries, flat).Some?
    ensures First(entries + more, flat) == First(entries, flat)
  {
    if more == [] {
      Neutral(entries);
    } else {
      FirstStays(entries, more[..|more| - 1], flat);
      SplitLast(entries, more);
      assert (entries + more)[..|entries + more| - 1] == entries + more[..|more| - 1];
    }
  }

  /** The client knows every exported name, without the blanks around it. */
  lemma {:induction false} ExportsKnown(trim: string -> string, entries: seq<Entry>, flat: string)
    requires First(entries, flat).Some? && trim(flat) != ""
    ensures trim(flat) in ClientNames(trim, entries)
  {
    var front := entries[..|entries| - 1];
    if First(front, flat).Some? {
      ExportsKnown(trim, front, flat);
    }
  }

  /** Names are exported as they are and looked up without the blanks around them.  In any registry, an
      exported name is found again as the tool it stands for if and only if it has no blanks around it, or
      what is left without them is not empty and stands, as it is or failing that in lower case, for that
      very tool.  Taking it for one of the client's names never helps. */
  lemma ExportFoundIff(spelling: Spelling, f: Fields, entries: seq<Entry>, flat: string, r: string)
    requires Tied(spelling, f, entries) && flat in f.claudeTools
    requires Resolves(spelling, f.clientNames, spelling.trim(flat), r)
    ensures var name := spelling.trim(flat);
            Lookup(spelling, entries, name, r) == First(entries, flat)
            <==> name == flat
                 || (name != ""
                     && (if Meaning(spelling.cloak, entries, name).Some?
                         then Meaning(spelling.cloak, entries, name) == First(entries, flat)
                         else spelling.lower(name) != name
                              && Meaning(spelling.cloak, entries, spelling.lower(name)) == First(entries, flat)))
  {
    assert First(entries, flat).Some?;
    if spelling.trim(flat) != "" {
      ExportsKnown(spelling.trim, entries, flat);
      assert r == spelling.trim(flat);
    }
  }

  // ---- lookups under another spelling ----------------------------------------------------------

  /** A name is some spelling of another: its lower case, what is under its cloak, or its cloak. */
  predicate Spells(spelling: Spelling, name: string, other: string) {
    name == other || spelling.lower(name) == other || spelling.uncloak(name) == other || spelling.cloak(other) == name
  }

  /** A name is taken for one the client knows if and only if it is some spelling of one, and for that one; a
      name the client itself uses is never changed, and neither is one that spells nothing the client knows. */
  lemma TakenForKnownIff(spelling: Spelling, known: set<string>, name: string, r: string)
    requires known != {} && Resolves(spelling, known, name, r)
    ensures r in known <==> exists n :: n in known && Spells(spelling, name, n)
    ensures r in known ==> Spells(spelling, name, r)
    ensures r !in known || name in known ==> r == name
  {
    if r in known {
      assert Spells(spelling, name, r);
    }
  }

  /** In any registry, a name that stands for no tool itself is found as the tool whose exported name is its
      lower case, or what is under its cloak where the client does not know it otherwise. */
  lemma RespelledIsFound(spelling: Spelling, f: Fields, entries: seq<Entry>, flat: string, name: string, r: string)
    requires Tied(spelling, f, entries) && flat in f.claudeTools && spelling.trim(flat) == flat != ""
    requires name != "" && Meaning(spelling.cloak, entries, name).None?
    requires Resolves(spelling, f.clientNames, name, r)
    requires spelling.lower(name) == flat
             || (name !in f.clientNames && spelling.lower(name) !in f.clientNames && spelling.uncloak(name) == flat)
    ensures Lookup(spelling, entries, name, r) == First(entries, flat) != None
  {
    ExportsKnown(spelling.trim, entries, flat);
  }

  // ---- lookups by alias ------------------------------------------------------------------------

  /** Where a flat name was first registered, or past the end. */
  function FirstAt(entries: seq<Entry>, flat: string): (n: nat)
    ensures n <= |entries|
    ensures forall i :: 0 <= i < n ==> entries[i].flat != flat
    ensures n < |entries| ==> entries[n].flat == flat
  {
    if entries == [] || entries[0].flat == flat then 0 else 1 + FirstAt(entries[1..], flat)
  }

  /** The first registration of a tool that wears `alias`, or past the end. */
  function FirstWearer(cloak: string -> string, entries: seq<Entry>, alias: string): (n: nat)
    ensures n <= |entries|
    ensures forall i :: 0 <= i < n ==> !Wears(cloak, entries[i].flat, alias)
    ensures n < |entries| ==> Wears(cloak, entries[n].flat, alias)
  {
    if entries == [] || Wears(cloak, entries[0].flat, alias) then 0 else 1 + FirstWearer(cloak, entries[1..], alias)
  }

  lemma {:induction false} FirstIsAt(entries: seq<Entry>, flat: string, n: nat)
    requires n <= |entries| && forall i :: 0 <= i < n ==> entries[i].flat != flat
    requires n < |entries| ==> entries[n].flat == flat
    ensures First(entries, flat) == if n < |entries| then Some(entries[n].spec) else None
  {
    if entries != [] {
      FirstIsAt(entries[..|entries| - 1], flat, if n < |entries| then n else |entries| - 1);
    }
  }

  lemma {:induction false} WearerIsFirst(cloak: string -> string, entries: seq<Entry>, alias: string, n: nat)
    requires n <= |entries| && forall i :: 0 <= i < n ==> !Wears(cloak, entries[i].flat, alias)
    requires n < |entries| ==> Wears(cloak, entries[n].flat, alias)
    ensures FirstWearing(cloak, entries, alias) == if n < |entries| then Some(entries[n].spec) else None
  {
    if entries != [] {
      var last := |entries| - 1;
      WearerIsFirst(cloak, entries[..last], alias, if n < |entries| then n else last);
      if n == last {
        FirstIsAt(entries[..last], entries[last].flat, last);
      }
    }
  }

  /** Claude answers with the alias a tool wears.  In any registry it leads back to the tool if and only if no
      other tool is exported under the alias itself, and no other tool that wears it was registered before. */
  lemma AliasFoundIff(spelling: Spelling, f: Fields, entries: seq<Entry>, flat: string, r: string)
    requires Tied(spelling, f, entries) && flat in f.claudeTools
    requires Wears(spelling.cloak, flat, spelling.cloak(flat))
    requires spelling.trim(spelling.cloak(flat)) == spelling.cloak(flat)
    requires Resolves(spelling, f.clientNames, spelling.cloak(flat), r)
    ensures var alias := spelling.cloak(flat);
            var tool, exported, wearer := FirstAt(entries, flat), FirstAt(entries, alias),
                                          FirstWearer(spelling.cloak, entries, alias);
            && tool < |entries| && wearer <= tool
            && (alias in f.claudeTools <==> exported < |entries|)
            && (Lookup(spelling, entries, spelling.trim(alias), r) == Some(entries[tool].spec)
                <==> entries[if exported < |entries| then exported else wearer].spec == entries[tool].spec)
  {
    var alias := spelling.cloak(flat);
    assert First(entries, flat).Some? && (alias in f.claudeTools <==> First(entries, alias).Some?);
    FirstIsAt(entries, flat, FirstAt(entries, flat));
    FirstIsAt(entries, alias, FirstAt(entries, alias));
    WearerIsFirst(spelling.cloak, entries, alias, FirstWearer(spelling.cloak, entries, alias));
  }

  // ---- what a tool is found as -----------------------------------------------------------------

  /** Whatever was registered before, a function tool registered now is found under its own name, or under the
      flat name of its namespace, as the kind, the bare name and the namespace it was registered with; unless
      that name was taken, and then it still stands for the tool that took it first. */
  lemma FunctionToolIsFound(cloak: string -> string, trim: string -> string, digest: string -> string,
                            entries: seq<Entry>, name: string, namespace: string)
    requires name != ""
    ensures var flat := if namespace == "" then name else FlattenNamespaceToolName(trim, digest, namespace, name);
            var kind := if namespace == "" then FunctionKind else NamespaceKind;
            Meaning(cloak, entries + FunctionEntries(trim, digest, name, namespace), flat)
            == if First(entries, flat).Some? then First(entries, flat) else Some(Spec(kind, name, namespace))
  {
    var all := FunctionEntries(trim, digest, name, namespace);
    assert (entries + all)[..|entries|] == entries;
  }
}

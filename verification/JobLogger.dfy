/**
  The job log handler (job_logger.go): handlers derived from one another over Go slices, which share
  backing arrays, and the line that is sent for a record.
 */
module JobLogger {
  import opened Text

  datatype Attr = Attr(key: string, value: string)

  // ---- Go slices ----

  /** A slice starting at the first element of its backing array. */
  datatype Slice<!T> = Slice(arr: array<T>, len: nat, cap: nat)

  predicate IsSlice<T>(s: Slice<T>) {
    s.len <= s.cap <= s.arr.Length
  }

  function Elements<T>(s: Slice<T>): seq<T>
    requires IsSlice(s)
    reads s.arr
  {
    s.arr[..s.len]
  }

  /** s[:len:len]: the same elements with no room to grow. */
  function Clip<T>(s: Slice<T>): Slice<T> {
    s.(cap := s.len)
  }

  /**
    Go's append.  It writes into the backing array when there is room and allocates otherwise; `spare`
    is the extra capacity the runtime chooses for a new array.
   */
  method Append<T>(s: Slice<T>, xs: seq<T>, spare: seq<T>) returns (r: Slice<T>)
    requires IsSlice(s)
    modifies if s.len + |xs| <= s.cap then {s.arr} else {}
    ensures IsSlice(r) && Elements(r) == old(Elements(s)) + xs
    ensures s.len + |xs| <= s.cap ==>
              r.arr == s.arr && r.cap == s.cap && s.arr[s.len + |xs|..] == old(s.arr[s.len + |xs|..])
    ensures s.len + |xs| > s.cap ==> fresh(r.arr)
  {
    var n := s.len + |xs|;
    if n <= s.cap {
      ghost var before := s.arr[..];
      var i := 0;
      while i < |xs|
        invariant 0 <= i <= |xs|
        invariant s.arr[..] == before[..s.len] + xs[..i] + before[s.len + i..]
      {
        s.arr[s.len + i] := xs[i];
        i := i + 1;
      }
      assert xs[..|xs|] == xs;
      r := Slice(s.arr, n, s.cap);
    } else {
      var all := s.arr[..s.len] + xs + spare;
      var arr := new T[|all|](k requires 0 <= k < |all| => all[k]);
      assert arr[..] == all;
      r := Slice(arr, n, |all|);
    }
  }

  // ---- handlers ----

  class Handler {
    const attrs: Slice<Attr>
    const groups: Slice<string>

    ghost predicate Valid() {
      IsSlice(attrs) && IsSlice(groups)
    }

    ghost function Attrs(): seq<Attr>
      requires Valid()
      reads attrs.arr
    {
      Elements(attrs)
    }

    ghost function Groups(): seq<string>
      requires Valid()
      reads groups.arr
    {
      Elements(groups)
    }

    constructor (attrs: Slice<Attr>, groups: Slice<string>)
      requires IsSlice(attrs) && IsSlice(groups)
      ensures Valid() && this.attrs == attrs && this.groups == groups
    {
      this.attrs := attrs;
      this.groups := groups;
    }

    /** Writes to nothing that existed before, so no existing handler can see a difference. */
    method WithAttrs(xs: seq<Attr>, spare: seq<Attr>) returns (h: Handler)
      requires Valid()
      ensures fresh(h) && h.Valid() && h.Attrs() == Attrs() + xs && h.Groups() == Groups()
    {
      var extended := Clip(attrs);
      if xs != [] {
        extended := Append(extended, xs, spare);
      }
      h := new Handler(extended, groups);
    }

    method WithGroup(name: string, spare: seq<string>) returns (h: Handler)
      requires Valid()
      ensures fresh(h) && h.Valid() && h.Attrs() == Attrs() && h.Groups() == Groups() + [name]
    {
      var extended := Append(Clip(groups), [name], spare);
      h := new Handler(attrs, extended);
    }
  }

  // ---- trees of handlers ----

  datatype Step = AddAttrs(attrs: seq<Attr>) | OpenGroup(name: string)

  /** The next handler is derived from an earlier one by one step. */
  datatype Derivation = Derivation(parent: nat, step: Step)

  predicate WellFounded(ds: seq<Derivation>) {
    forall i | 0 <= i < |ds| :: ds[i].parent <= i
  }

  /** The steps that lead from the root (handler 0) to handler i. */
  function Path(ds: seq<Derivation>, i: nat): seq<Step>
    requires WellFounded(ds) && i <= |ds|
  {
    if i == 0 then [] else Path(ds, ds[i - 1].parent) + [ds[i - 1].step]
  }

  function AttrsOf(path: seq<Step>): seq<Attr> {
    if path == [] then []
    else
      var last := path[|path| - 1];
      AttrsOf(path[..|path| - 1]) + if last.AddAttrs? then last.attrs else []
  }

  function GroupsOf(path: seq<Step>): seq<string> {
    if path == [] then []
    else
      var last := path[|path| - 1];
      GroupsOf(path[..|path| - 1]) + if last.OpenGroup? then [last.name] else []
  }

  lemma PathOfRoot(ds: seq<Derivation>)
    requires WellFounded(ds)
    ensures Path(ds, 0) == [] && AttrsOf([]) == [] && GroupsOf([]) == []
  {}

  lemma PathStep(ds: seq<Derivation>, i: nat)
    requires WellFounded(ds) && 1 <= i <= |ds|
    ensures Path(ds, i) == Path(ds, ds[i - 1].parent) + [ds[i - 1].step]
  {}

  lemma PathExtended(path: seq<Step>, step: Step)
    ensures AttrsOf(path + [step]) == AttrsOf(path) + if step.AddAttrs? then step.attrs else []
    ensures GroupsOf(path + [step]) == GroupsOf(path) + if step.OpenGroup? then [step.name] else []
  {
    assert (path + [step])[..|path|] == path;
  }

  ghost predicate Shows(h: Handler, path: seq<Step>)
    reads h.attrs.arr, h.groups.arr
  {
    h.Valid() && h.Attrs() == AttrsOf(path) && h.Groups() == GroupsOf(path)
  }

  method Derive(parent: Handler, step: Step, ghost path: seq<Step>, spareAttrs: seq<Attr>, spareGroups: seq<string>)
    returns (h: Handler)
    requires Shows(parent, path)
    ensures fresh(h) && Shows(h, path + [step])
  {
    PathExtended(path, step);
    hide AttrsOf, GroupsOf;
    match step {
      case AddAttrs(xs) => h := parent.WithAttrs(xs, spareAttrs);
      case OpenGroup(name) => h := parent.WithGroup(name, spareGroups);
    }
  }

  /** The handler a job starts with: no attributes and no groups. */
  method NewRoot() returns (root: Handler)
    ensures fresh(root) && Shows(root, [])
  {
    var noAttrs := new Attr[0](k => Attr("", ""));
    var noGroups := new string[0](k => "");
    root := new Handler(Slice(noAttrs, 0, 0), Slice(noGroups, 0, 0));
  }

  /**
    Any tree of derived handlers is persistent: in the end every handler, however many others were
    derived from it and in whatever order, shows exactly what its own path added.
   */
  method DeriveAll(ds: seq<Derivation>, spareAttrs: nat -> seq<Attr>, spareGroups: nat -> seq<string>)
    returns (hs: seq<Handler>)
    requires WellFounded(ds)
    ensures |hs| == |ds| + 1
    ensures forall i | 0 <= i < |hs| :: Shows(hs[i], Path(ds, i))
  {
    hide AttrsOf, GroupsOf, Path;
    PathOfRoot(ds);
    var root := NewRoot();
    hs := [root];
    for n := 0 to |ds|
      invariant |hs| == n + 1
      invariant forall i | 0 <= i <= n :: Shows(hs[i], Path(ds, i))
    {
      var d := ds[n];
      PathStep(ds, n + 1);
      var h := Derive(hs[d.parent], d.step, Path(ds, d.parent), spareAttrs(n), spareGroups(n));
      hs := hs + [h];
    }
  }

  // ---- the line sent for a record ----

  function Prefix(groups: seq<string>): string {
    if groups == [] then "" else Prefix(groups[..|groups| - 1]) + groups[|groups| - 1] + "."
  }

  function Render(groups: seq<string>, a: Attr): string {
    if a.key == "" then "" else " " + Prefix(groups) + a.key + "=" + a.value
  }

  function RenderAll(groups: seq<string>, attrs: seq<Attr>): string {
    if attrs == [] then "" else RenderAll(groups, attrs[..|attrs| - 1]) + Render(groups, attrs[|attrs| - 1])
  }

  function Line(message: string, groups: seq<string>, preAttrs: seq<Attr>, recordAttrs: seq<Attr>): string {
    message + RenderAll(groups, preAttrs) + RenderAll(groups, recordAttrs)
  }

  lemma RenderNothing(groups: seq<string>, attrs: seq<Attr>)
    ensures RenderAll(groups, attrs[..0]) == ""
  {}

  lemma RenderNext(groups: seq<string>, attrs: seq<Attr>, i: nat)
    requires i < |attrs|
    ensures RenderAll(groups, attrs[..i + 1]) == RenderAll(groups, attrs[..i]) + Render(groups, attrs[i])
  {
    assert attrs[..i + 1][..i] == attrs[..i];
    hide Render;
  }

  method WriteAttr(b: string, groups: seq<string>, a: Attr) returns (r: string)
    ensures r == b + Render(groups, a)
  {
    if a.key == "" {
      return b;
    }
    r := b + " ";
    for i := 0 to |groups|
      invariant r == b + " " + Prefix(groups[..i])
    {
      assert groups[..i + 1][..i] == groups[..i];
      r := r + groups[i];
      r := r + ".";
    }
    assert groups[..|groups|] == groups;
    r := r + a.key;
    r := r + "=";
    r := r + a.value;
  }

  method FormatLogRecord(message: string, recordAttrs: seq<Attr>, groups: seq<string>, preAttrs: seq<Attr>)
      returns (b: string)
    ensures b == Line(message, groups, preAttrs, recordAttrs)
  {
    hide Render, RenderAll;
    RenderNothing(groups, preAttrs);
    RenderNothing(groups, recordAttrs);
    b := message;
    for i := 0 to |preAttrs|
      invariant b == message + RenderAll(groups, preAttrs[..i])
    {
      RenderNext(groups, preAttrs, i);
      b := WriteAttr(b, groups, preAttrs[i]);
    }
    assert preAttrs[..|preAttrs|] == preAttrs;
    for i := 0 to |recordAttrs|
      invariant b == message + RenderAll(groups, preAttrs) + RenderAll(groups, recordAttrs[..i])
    {
      RenderNext(groups, recordAttrs, i);
      b := WriteAttr(b, groups, recordAttrs[i]);
    }
    assert recordAttrs[..|recordAttrs|] == recordAttrs;
  }

  lemma RenderSnoc(groups: seq<string>, attrs: seq<Attr>, a: Attr)
    ensures RenderAll(groups, attrs + [a]) == RenderAll(groups, attrs) + Render(groups, a)
  {
    assert (attrs + [a])[..|attrs|] == attrs;
    hide Render;
  }

  lemma {:induction false} RenderAppend(groups: seq<string>, a: seq<Attr>, b: seq<Attr>)
    ensures RenderAll(groups, a + b) == RenderAll(groups, a) + RenderAll(groups, b)
  {
    RenderNothing(groups, []);
    hide Render, RenderAll;
    if b == [] {
      assert a + b == a && [][..0] == b;
    } else {
      var (init, last) := (b[..|b| - 1], b[|b| - 1]);
      assert a + b == (a + init) + [last] && b == init + [last];
      RenderAppend(groups, a, init);
      RenderSnoc(groups, a + init, last);
      RenderSnoc(groups, init, last);
    }
  }

  lemma {:induction false} NoGroupsOpened(path: seq<Step>)
    requires forall i | 0 <= i < |path| :: path[i].AddAttrs?
    ensures GroupsOf(path) == []
  {
    if path != [] {
      NoGroupsOpened(path[..|path| - 1]);
    }
  }

  /** Without groups, attributes attached beforehand read exactly like attributes passed with the record. */
  lemma AttachedReadsLikePassed(message: string, path: seq<Step>, recordAttrs: seq<Attr>)
    requires forall i | 0 <= i < |path| :: path[i].AddAttrs?
    ensures Line(message, GroupsOf(path), AttrsOf(path), recordAttrs)
            == Line(message, [], [], AttrsOf(path) + recordAttrs)
  {
    hide Render, RenderAll, AttrsOf, GroupsOf;
    NoGroupsOpened(path);
    RenderAppend([], AttrsOf(path), recordAttrs);
    RenderNothing([], AttrsOf(path));
    assert AttrsOf(path)[..0] == [];
  }

  // ---- the line, word by word ----

  /**
    The words of some attributes: groups and key joined by dots, '=', the value.  Attributes without
    a key make none.
   */
  function Words(groups: seq<string>, attrs: seq<Attr>): seq<string> {
    if attrs == [] then []
    else
      var a := attrs[|attrs| - 1];
      Words(groups, attrs[..|attrs| - 1])
      + if a.key == "" then [] else [Join(groups + [a.key], '.') + "=" + a.value]
  }

  lemma {:induction false} PrefixIsJoin(groups: seq<string>, key: string)
    ensures Prefix(groups) + key == Join(groups + [key], '.')
  {
    if groups == [] {
      assert groups + [key] == [key];
    } else {
      var init, last := groups[..|groups| - 1], groups[|groups| - 1];
      PrefixIsJoin(init, last);
      JoinConcat(groups, [key], '.');
      assert groups == init + [last] && Join([key], '.') == key;
    }
  }

  lemma RenderIsWord(groups: seq<string>, a: Attr)
    ensures a.key == "" ==> Render(groups, a) == ""
    ensures a.key != "" ==> Render(groups, a) == " " + (Join(groups + [a.key], '.') + "=" + a.value)
  {
    PrefixIsJoin(groups, a.key);
    hide Join, Prefix;
    assert a.key != "" ==> Render(groups, a) == " " + (Prefix(groups) + a.key) + "=" + a.value;
  }

  lemma JoinOneMore(words: seq<string>, w: string)
    requires words != []
    ensures Join(words + [w], ' ') == Join(words, ' ') + (" " + w)
  {
    JoinConcat(words, [w], ' ');
    assert Join([w], ' ') == w;
    hide Join;
    assert Join(words, ' ') + [' '] + w == Join(words, ' ') + (" " + w);
  }

  lemma {:induction false} RenderAllIsWords(before: seq<string>, groups: seq<string>, attrs: seq<Attr>)
    requires before != []
    ensures Join(before, ' ') + RenderAll(groups, attrs) == Join(before + Words(groups, attrs), ' ')
  {
    hide Join, Render;
    if attrs == [] {
      assert before + [] == before;
    } else {
      var init, a := attrs[..|attrs| - 1], attrs[|attrs| - 1];
      RenderAllIsWords(before, groups, init);
      RenderIsWord(groups, a);
      var words := before + Words(groups, init);
      if a.key == "" {
        assert before + Words(groups, attrs) == words;
      } else {
        var w := Join(groups + [a.key], '.') + "=" + a.value;
        JoinOneMore(words, w);
        assert before + Words(groups, attrs) == words + [w];
        assert Join(before, ' ') + RenderAll(groups, attrs) == Join(words, ' ') + Render(groups, a);
      }
    }
  }

  /**
    The line is the message, the words of the attached attributes and those of the record's, with one
    space between any two.
   */
  lemma LineIsWords(message: string, groups: seq<string>, preAttrs: seq<Attr>, recordAttrs: seq<Attr>)
    ensures Line(message, groups, preAttrs, recordAttrs)
            == Join([message] + Words(groups, preAttrs) + Words(groups, recordAttrs), ' ')
  {
    assert Join([message], ' ') == message;
    hide Join, RenderAll, Words;
    RenderAllIsWords([message], groups, preAttrs);
    RenderAllIsWords([message] + Words(groups, preAttrs), groups, recordAttrs);
  }

  // ---- qualification as the contract of log/slog's WithGroup asks for ----

  /** An empty name opens no group. */
  function Named(groups: seq<string>): seq<string> {
    if groups == [] then []
    else Named(groups[..|groups| - 1]) + if groups[|groups| - 1] == "" then [] else [groups[|groups| - 1]]
  }

  /** The attached attributes, each qualified by the named groups open when it was attached. */
  function Qualified(path: seq<Step>): string {
    if path == [] then ""
    else
      var (init, last) := (path[..|path| - 1], path[|path| - 1]);
      Qualified(init) + if last.AddAttrs? then RenderAll(Named(GroupsOf(init)), last.attrs) else ""
  }

  predicate HasKey(attrs: seq<Attr>) {
    exists i | 0 <= i < |attrs| :: attrs[i].key != ""
  }

  /** Does the path open a group after an attribute with a key, or attach one under a group without a name? */
  predicate Misattached(path: seq<Step>) {
    if path == [] then false
    else
      var (init, last) := (path[..|path| - 1], path[|path| - 1]);
      Misattached(init)
      || (last.OpenGroup? && HasKey(AttrsOf(init)))
      || (last.AddAttrs? && HasKey(last.attrs) && "" in GroupsOf(init))
  }

  /** ... or pass one with the record under such a group? */
  predicate Misqualified(path: seq<Step>, recordAttrs: seq<Attr>) {
    Misattached(path) || (HasKey(recordAttrs) && "" in GroupsOf(path))
  }

  lemma {:induction false} DeeperIsLonger(groups: seq<string>, name: string, attrs: seq<Attr>)
    ensures |RenderAll(groups, attrs)| <= |RenderAll(groups + [name], attrs)|
    ensures HasKey(attrs) ==> |RenderAll(groups, attrs)| < |RenderAll(groups + [name], attrs)|
    ensures !HasKey(attrs) ==> RenderAll(groups, attrs) == ""
  {
    DeeperPrefix(groups, name);
    hide Prefix, Render;
    if attrs != [] {
      var init, a := attrs[..|attrs| - 1], attrs[|attrs| - 1];
      DeeperIsLonger(groups, name, init);
      RenderLength(groups, a);
      RenderLength(groups + [name], a);
      assert HasKey(attrs) <==> HasKey(init) || a.key != "";
    }
  }

  lemma DeeperPrefix(groups: seq<string>, name: string)
    ensures |Prefix(groups + [name])| == |Prefix(groups)| + |name| + 1
  {
    assert (groups + [name])[..|groups|] == groups;
  }

  lemma {:induction false} NamedPrefix(groups: seq<string>)
    ensures |Prefix(Named(groups))| <= |Prefix(groups)|
    ensures "" in groups ==> |Prefix(Named(groups))| < |Prefix(groups)|
    ensures "" !in groups ==> Named(groups) == groups
  {
    if groups != [] {
      var init, last := groups[..|groups| - 1], groups[|groups| - 1];
      NamedPrefix(init);
      assert groups == init + [last];
      if last == "" {
        assert Named(groups) == Named(init);
      } else {
        assert Named(groups)[..|Named(init)|] == Named(init);
      }
    }
  }

  /** Leaving nameless groups out shortens exactly what they qualify. */
  lemma {:induction false} NamedIsShorter(groups: seq<string>, attrs: seq<Attr>)
    ensures |RenderAll(Named(groups), attrs)| <= |RenderAll(groups, attrs)|
    ensures RenderAll(Named(groups), attrs) == RenderAll(groups, attrs) <==> !(HasKey(attrs) && "" in groups)
    ensures HasKey(attrs) && "" in groups ==> |RenderAll(Named(groups), attrs)| < |RenderAll(groups, attrs)|
  {
    NamedPrefix(groups);
    hide Prefix, Named;
    if attrs != [] {
      var init, a := attrs[..|attrs| - 1], attrs[|attrs| - 1];
      NamedIsShorter(groups, init);
      assert HasKey(attrs) <==> HasKey(init) || a.key != "";
      RenderLength(groups, a);
      RenderLength(Named(groups), a);
    }
  }

  lemma RenderLength(groups: seq<string>, a: Attr)
    ensures |Render(groups, a)| == if a.key == "" then 0 else |Prefix(groups)| + |a.key| + |a.value| + 2
  {}

  lemma QualifiedExtended(path: seq<Step>, step: Step)
    ensures Qualified(path + [step]) == Qualified(path) + if step.AddAttrs?
            then RenderAll(Named(GroupsOf(path)), step.attrs) else ""
    ensures Misattached(path + [step]) <==>
            Misattached(path) || (step.OpenGroup? && HasKey(AttrsOf(path)))
            || (step.AddAttrs? && HasKey(step.attrs) && "" in GroupsOf(path))
  {
    assert (path + [step])[..|path|] == path;
    hide RenderAll, AttrsOf, GroupsOf, Named, HasKey;
  }

  lemma NothingQualified()
    ensures Qualified([]) == "" && RenderAll(GroupsOf([]), AttrsOf([])) == "" && !Misattached([])
  {}

  lemma {:induction false} AttachedVersusQualified(path: seq<Step>)
    ensures |Qualified(path)| <= |RenderAll(GroupsOf(path), AttrsOf(path))|
    ensures !Misattached(path) ==> Qualified(path) == RenderAll(GroupsOf(path), AttrsOf(path))
    ensures Misattached(path) ==> |Qualified(path)| < |RenderAll(GroupsOf(path), AttrsOf(path))|
  {
    NothingQualified();
    hide Render, RenderAll, AttrsOf, GroupsOf, Qualified, Misattached, HasKey, Named;
    if path != [] {
      var (init, last) := (path[..|path| - 1], path[|path| - 1]);
      assert path == init + [last];
      AttachedVersusQualified(init);
      QualifiedExtended(init, last);
      PathExtended(init, last);
      if last.AddAttrs? {
        assert GroupsOf(path) == GroupsOf(init) && AttrsOf(path) == AttrsOf(init) + last.attrs;
        RenderAppend(GroupsOf(init), AttrsOf(init), last.attrs);
        NamedIsShorter(GroupsOf(init), last.attrs);
      } else {
        DeeperIsLonger(GroupsOf(init), last.name, AttrsOf(init));
        DeeperIsLonger(GroupsOf(init) + [last.name], last.name, AttrsOf(init));
        assert AttrsOf(path) == AttrsOf(init);
      }
    }
  }

  /**
    The handler prefixes every attribute with all its groups, those opened later and those without a
    name included.  The attributes are qualified as the contract of WithGroup asks for if and only if
    no group was opened after an attribute with a key and no nameless group stands before one.
   */
  lemma LineIsQualifiedIff(message: string, path: seq<Step>, recordAttrs: seq<Attr>)
    ensures (Line(message, GroupsOf(path), AttrsOf(path), recordAttrs) ==
             message + Qualified(path) + RenderAll(Named(GroupsOf(path)), recordAttrs))
            <==> !Misqualified(path, recordAttrs)
  {
    hide Render, RenderAll, Qualified, Misattached, AttrsOf, GroupsOf, Named, HasKey;
    AttachedVersusQualified(path);
    NamedIsShorter(GroupsOf(path), recordAttrs);
  }

  /** With("k", "v") then WithGroup("g") sends "k" as "g.k". */
  lemma GroupAfterAttrExample()
    ensures Misattached([AddAttrs([Attr("k", "v")]), OpenGroup("g")])
  {
    var a := [AddAttrs([Attr("k", "v")])];
    assert [] + a == a && a + [OpenGroup("g")] == [AddAttrs([Attr("k", "v")]), OpenGroup("g")];
    PathExtended([], a[0]);
    QualifiedExtended(a, OpenGroup("g"));
    assert AttrsOf(a) == [Attr("k", "v")];
    assert AttrsOf(a)[0].key != "";
  }

  /** WithGroup("") then With("k", "v") sends "k" as ".k". */
  lemma NamelessGroupExample()
    ensures Misattached([OpenGroup(""), AddAttrs([Attr("k", "v")])])
  {
    var a := [OpenGroup("")];
    var attrs := [Attr("k", "v")];
    assert [] + a == a && a + [AddAttrs(attrs)] == [OpenGroup(""), AddAttrs(attrs)];
    PathExtended([], a[0]);
    QualifiedExtended(a, AddAttrs(attrs));
    assert attrs[0].key != "";
  }
}

/**
  Where the entries of a downloaded archive are written: lexical path cleaning,
  the containment guard, and the extraction loop.  Paths are Unix paths.
 */
module ArchivePath {
  import opened Text

  predicate Rooted(path: string) { path != "" && path[0] == '/' }

  /** A component that names something below its parent. */
  predicate Plain(c: string) { c != "" && c != "." && c != ".." && Free(c, '/') }

  predicate AllPlain(cs: seq<string>) { forall i | 0 <= i < |cs| :: Plain(cs[i]) }

  function StepInto(rooted: bool, out: seq<string>, c: string): seq<string> {
    if c == "" || c == "." then out
    else if c == ".." then
      if out != [] && out[|out| - 1] != ".." then out[..|out| - 1]
      else if rooted then out
      else out + [c]
    else out + [c]
  }

  function Resolve(rooted: bool, out: seq<string>, cs: seq<string>): seq<string>
    decreases |cs|
  {
    if cs == [] then out else Resolve(rooted, StepInto(rooted, out, cs[0]), cs[1..])
  }

  /** The components a path comes down to. */
  function Components(path: string): seq<string> { Resolve(Rooted(path), [], Split(path, '/')) }

  function Show(rooted: bool, cs: seq<string>): string {
    if rooted then "/" + Join(cs, '/') else if cs == [] then "." else Join(cs, '/')
  }

  /** filepath.Clean */
  function Clean(path: string): string { Show(Rooted(path), Components(path)) }

  /** filepath.Join of two elements: an empty first element is ignored. */
  function JoinPath(a: string, b: string): string {
    if a != "" then Clean(a + "/" + b)
    else if b != "" then Clean(b)
    else ""
  }

  function UpToSlash(path: string): string {
    if path == "" || path[|path| - 1] == '/' then path else UpToSlash(path[..|path| - 1])
  }

  /** filepath.Dir */
  function Parent(path: string): string { Clean(UpToSlash(path)) }

  function Relative(name: string): string { Clean("/" + name) }

  function Target(dest: string, name: string): string { JoinPath(dest, Relative(name)) }

  predicate HasPrefix(s: string, prefix: string) { |prefix| <= |s| && s[..|prefix|] == prefix }

  predicate Guard(dest: string, name: string) { HasPrefix(Target(dest, name) + "/", dest + "/") }

  /** A destination the guard works for: already clean, and naming neither the root nor the current directory. */
  predicate Usable(dest: string) { dest != "" && Clean(dest) == dest && dest != "/" && dest != "." }

  // ---- resolved components ----

  /** What resolving leaves: plain components, after some ".." when the path is relative. */
  predicate Resolved(rooted: bool, cs: seq<string>) {
    (forall i | 0 <= i < |cs| :: Plain(cs[i]) || (cs[i] == ".." && !rooted))
    && forall i | 0 < i < |cs| && cs[i] == ".." :: cs[i - 1] == ".."
  }

  lemma StepKeepsResolved(rooted: bool, out: seq<string>, c: string)
    requires Resolved(rooted, out) && Free(c, '/')
    ensures Resolved(rooted, StepInto(rooted, out, c))
  {
    hide Free;
  }

  lemma {:induction false} ResolveKeepsResolved(rooted: bool, out: seq<string>, cs: seq<string>)
    requires Resolved(rooted, out) && AllFree(cs, '/')
    ensures Resolved(rooted, Resolve(rooted, out, cs))
    decreases |cs|
  {
    hide Resolved, Free, StepInto;
    if cs != [] {
      StepKeepsResolved(rooted, out, cs[0]);
      ResolveKeepsResolved(rooted, StepInto(rooted, out, cs[0]), cs[1..]);
    }
  }

  lemma {:induction false} ResolveAppend(rooted: bool, out: seq<string>, a: seq<string>, b: seq<string>)
    ensures Resolve(rooted, out, a + b) == Resolve(rooted, Resolve(rooted, out, a), b)
    decreases |a|
  {
    hide StepInto;
    if a == [] {
      assert a + b == b;
    } else {
      assert (a + b)[0] == a[0] && (a + b)[1..] == a[1..] + b;
      ResolveAppend(rooted, StepInto(rooted, out, a[0]), a[1..], b);
    }
  }

  /** Components already resolved stay as they are. */
  lemma {:induction false} ResolvedStay(rooted: bool, out: seq<string>, cs: seq<string>)
    requires Resolved(rooted, out + cs)
    ensures Resolve(rooted, out, cs) == out + cs
    decreases |cs|
  {
    hide Free;
    if cs == [] {
      assert out + cs == out;
    } else {
      var all := out + cs;
      assert all[|out|] == cs[0] && (out != [] ==> all[|out| - 1] == out[|out| - 1]);
      assert StepInto(rooted, out, cs[0]) == out + [cs[0]];
      assert out + [cs[0]] + cs[1..] == all;
      ResolvedStay(rooted, out + [cs[0]], cs[1..]);
    }
  }

  lemma ComponentsAreResolved(path: string)
    ensures Resolved(Rooted(path), Components(path))
  {
    hide Resolved;
    SplitIsFree(path, '/');
    assert Resolved(Rooted(path), []) by { EmptyIsResolved(Rooted(path)); }
    ResolveKeepsResolved(Rooted(path), [], Split(path, '/'));
  }

  lemma EmptyIsResolved(rooted: bool)
    ensures Resolved(rooted, [])
  {
  }

  lemma ResolvedAreFree(rooted: bool, cs: seq<string>)
    requires Resolved(rooted, cs)
    ensures AllFree(cs, '/')
  {
    forall i | 0 <= i < |cs| ensures Free(cs[i], '/') {
      assert Plain(cs[i]) || cs[i] == "..";
    }
  }

  /** The parts of a shown path. */
  lemma SplitShow(rooted: bool, cs: seq<string>)
    requires Resolved(rooted, cs)
    ensures cs != [] ==> Split(Show(rooted, cs), '/') == (if rooted then [""] else []) + cs
    ensures cs == [] ==> Split(Show(rooted, cs), '/') == if rooted then ["", ""] else ["."]
  {
    hide Resolved, Split;
    ResolvedAreFree(rooted, cs);
    if rooted {
      SplitHead("", Join(cs, '/'), '/');
      assert "" + ['/'] + Join(cs, '/') == Show(rooted, cs);
    }
    if cs != [] {
      SplitJoin(cs, '/');
      assert rooted ==> [""] + cs == [""] + Split(Join(cs, '/'), '/');
    } else {
      SplitFree("", '/');
      SplitFree(".", '/');
    }
  }

  lemma JoinHead(cs: seq<string>)
    requires cs != [] && cs[0] != ""
    ensures Join(cs, '/') != "" && Join(cs, '/')[0] == cs[0][0]
  {
  }

  lemma ShowRooted(rooted: bool, cs: seq<string>)
    requires Resolved(rooted, cs)
    ensures Rooted(Show(rooted, cs)) == rooted
  {
    if !rooted && cs != [] {
      assert cs[0] != "" && cs[0][0] != '/' by { assert Plain(cs[0]) || cs[0] == ".."; }
      JoinHead(cs);
    }
  }

  /** A shown path has the components it was shown from. */
  lemma ComponentsOfShow(rooted: bool, cs: seq<string>)
    requires Resolved(rooted, cs)
    ensures Components(Show(rooted, cs)) == cs && Clean(Show(rooted, cs)) == Show(rooted, cs)
  {
    ShowRooted(rooted, cs);
    SplitShow(rooted, cs);
    hide Resolved, Show, Resolve, Split, Rooted;
    ResolveShown(rooted, cs);
    assert cs != [] && !rooted ==> [] + cs == cs;
  }

  lemma ResolveShown(rooted: bool, cs: seq<string>)
    requires Resolved(rooted, cs)
    ensures Resolve(rooted, [], cs) == cs && Resolve(rooted, [], [""] + cs) == cs
    ensures Resolve(rooted, [], ["", ""]) == [] && Resolve(rooted, [], ["."]) == []
  {
    ResolvedStay(rooted, [], cs);
    ResolveEmpty(rooted, []);
    assert Resolve(rooted, [], ["."][1..]) == [];
    ResolveAppend(rooted, [], [""], cs);
    ResolveAppend(rooted, [], [""], [""]);
    hide Resolved, StepInto, Resolve;
    assert [] + cs == cs && [""] + [""] == ["", ""];
  }

  /** Cleaning twice is cleaning once. */
  lemma CleanIsIdempotent(path: string)
    ensures Clean(Clean(path)) == Clean(path)
  {
    ComponentsAreResolved(path);
    ComponentsOfShow(Rooted(path), Components(path));
  }

  /** Whatever an entry is called, its relative path is rooted and never climbs. */
  lemma RelativeNeverClimbs(name: string) returns (below: seq<string>)
    ensures below == Components("/" + name) && AllPlain(below)
    ensures Relative(name) == "/" + Join(below, '/')
    ensures Relative(name) == "/" <==> below == []
  {
    below := Components("/" + name);
    ComponentsAreResolved("/" + name);
    assert AllPlain(below) by {
      forall i | 0 <= i < |below| ensures Plain(below[i]) {}
    }
    if below != [] { assert Plain(below[0]); JoinHead(below); }
  }

  lemma ShowAppend(rooted: bool, cs: seq<string>, w: string)
    ensures Show(rooted, cs + [w])
            == if cs == [] then (if rooted then "/" else "") + w else Show(rooted, cs) + "/" + w
  {
    if cs == [] {
      assert cs + [w] == [w];
    } else {
      JoinConcat(cs, [w], '/');
    }
  }

  // ---- the target of an entry ----

  lemma ResolvedConcat(rooted: bool, a: seq<string>, b: seq<string>)
    requires Resolved(rooted, a) && AllPlain(b)
    ensures Resolved(rooted, a + b)
  {
    hide Free;
    var all := a + b;
    assert forall i | 0 <= i < |b| :: Plain(b[i]) && b[i] != "..";
  }

  lemma ResolvedPrefix(rooted: bool, a: seq<string>, b: seq<string>)
    requires Resolved(rooted, a + b)
    ensures Resolved(rooted, a)
  {
    hide Free, Plain;
    assert forall i | 0 <= i < |a| :: (a + b)[i] == a[i];
  }

  lemma ComponentsOfLonger(path: string, tail: string)
    requires path != ""
    ensures Rooted(path + "/" + tail) == Rooted(path)
    ensures Components(path + "/" + tail) == Resolve(Rooted(path), Components(path), Split(tail, '/'))
  {
    hide Split, Resolve;
    SplitConcat(path, tail, '/');
    assert path + ['/'] + tail == path + "/" + tail;
    ResolveAppend(Rooted(path), [], Split(path, '/'), Split(tail, '/'));
  }

  lemma ResolvePlain(rooted: bool, out: seq<string>, below: seq<string>)
    requires Resolved(rooted, out) && AllPlain(below)
    ensures Resolve(rooted, out, Split(Join(below, '/'), '/')) == out + below
    ensures Resolve(rooted, out, Split("/" + Join(below, '/'), '/')) == out + below
  {
    ResolvedConcat(rooted, out, below);
    ResolvedStay(rooted, out, below);
    assert AllFree(below, '/') by {
      forall i | 0 <= i < |below| ensures Free(below[i], '/') { assert Plain(below[i]); }
    }
    hide Resolved, AllPlain, Split, Join, Resolve;
    JoinedParts(below);
    ResolveEmpty(rooted, out);
    FreeEmpty();
    SplitHead("", Join(below, '/'), '/');
    assert "" + ['/'] + Join(below, '/') == "/" + Join(below, '/');
    ResolveAppend(rooted, out, [""], Split(Join(below, '/'), '/'));
  }

  /** A path followed by plain components. */
  lemma CleanBelow(path: string, below: seq<string>)
    requires path != "" && AllPlain(below)
    ensures Clean(path + "/" + Join(below, '/')) == Show(Rooted(path), Components(path) + below)
    ensures Clean(path + "//" + Join(below, '/')) == Show(Rooted(path), Components(path) + below)
  {
    ComponentsAreResolved(path);
    hide Resolved, AllPlain, Split, Resolve, Join, Components, Rooted, Show;
    var tail := Join(below, '/');
    ResolvePlain(Rooted(path), Components(path), below);
    ComponentsOfLonger(path, tail);
    ComponentsOfLonger(path, "/" + tail);
    assert path + "//" + tail == path + "/" + ("/" + tail);
  }

  lemma FreeEmpty() ensures Free("", '/') {}

  lemma ResolveEmpty(rooted: bool, out: seq<string>)
    ensures Resolve(rooted, out, [""]) == out
  {
    assert Resolve(rooted, out, [""][1..]) == out;
  }

  lemma JoinedParts(below: seq<string>)
    requires AllFree(below, '/')
    ensures Split(Join(below, '/'), '/') == if below == [] then [""] else below
  {
    hide Split;
    if below != [] { SplitJoin(below, '/'); } else { SplitFree("", '/'); }
  }

  /** Every entry's target, from the destination's components and the entry's own. */
  lemma TargetIsShown(dest: string, name: string) returns (below: seq<string>)
    requires dest != ""
    ensures below == Components("/" + name) && AllPlain(below)
    ensures Target(dest, name) == Show(Rooted(dest), Components(dest) + below)
    ensures Resolved(Rooted(dest), Components(dest) + below)
    ensures Relative(name) == "/" <==> below == []
  {
    hide Components, Resolved, AllPlain, Join, Relative, Clean;
    below := RelativeNeverClimbs(name);
    ComponentsAreResolved(dest);
    ResolvedConcat(Rooted(dest), Components(dest), below);
    CleanBelow(dest, below);
    assert dest + "/" + Relative(name) == dest + "//" + Join(below, '/');
  }

  /** Below a usable destination the target is the destination followed by the entry's own clean path. */
  lemma TargetIsInside(dest: string, name: string)
    requires Usable(dest)
    ensures Target(dest, name) == if Relative(name) == "/" then dest else dest + Relative(name)
    ensures Guard(dest, name)
  {
    hide Components, Resolved, AllPlain, Relative;
    var below := TargetIsShown(dest, name);
    var again := RelativeNeverClimbs(name);
    var top := Components(dest);
    UsableHasComponents(dest);
    if below == [] {
      assert top + below == top;
    } else {
      JoinConcat(top, below, '/');
      assert Target(dest, name) == dest + Relative(name);
    }
  }

  lemma UsableHasComponents(dest: string)
    requires Usable(dest)
    ensures Components(dest) != [] && Show(Rooted(dest), Components(dest)) == dest
  {
    hide Components;
    assert Components(dest) == [] ==> dest == "/" || dest == ".";
  }

  // ---- exactly when the guard lets an entry through ----

  /** A destination whose target starts with it, part by part, is itself a clean path. */
  lemma PrefixIsClean(dest: string, cs: seq<string>)
    requires dest != "" && Resolved(Rooted(dest), cs) && cs != []
    requires HasPrefix(Show(Rooted(dest), cs) + "/", dest + "/")
    ensures Usable(dest)
  {
    hide Resolved, Show, Split;
    var r := Rooted(dest);
    var t := Show(r, cs) + "/";
    var rest := t[|dest| + 1..];
    SplitConcat(Show(r, cs), "", '/');
    SplitConcat(dest, rest, '/');
    assert dest + ['/'] + rest == t && Show(r, cs) + ['/'] + "" == t;
    FreeEmpty();
    SplitFree("", '/');
    SplitShow(r, cs);
    var parts := (if r then [""] else []) + cs;
    assert Split(dest, '/') + Split(rest, '/') == parts + [""];
    var n := |Split(dest, '/')|;
    assert n <= |parts|;
    assert Split(dest, '/') == (parts + [""])[..n] == parts[..n];
    JoinSplit(dest, '/');
    PartsOfClean(dest, r, cs, n);
  }

  lemma PartsOfClean(dest: string, r: bool, cs: seq<string>, n: nat)
    requires dest != "" && r == Rooted(dest) && Resolved(r, cs) && cs != []
    requires 1 <= n <= |cs| + (if r then 1 else 0)
    requires dest == Join(((if r then [""] else []) + cs)[..n], '/')
    ensures Usable(dest)
  {
    var k := if r then n - 1 else n;
    var front := cs[..k];
    assert cs == front + cs[k..];
    ResolvedPrefix(r, front, cs[k..]);
    assert ((if r then [""] else []) + cs)[..n] == (if r then [""] else []) + front;
    assert k != 0;
    assert front[0] != "" && front[0] != "." by { assert Plain(cs[0]) || cs[0] == ".."; }
    hide Resolved, Components;
    if r {
      JoinConcat([""], front, '/');
      assert Join([""], '/') == "";
    } else {
      assert [] + front == front;
    }
    assert dest == Show(r, front);
    ComponentsOfShow(r, front);
    ComponentsOfNoComponents();
  }

  lemma ComponentsOfNoComponents()
    ensures Components("/") == [] && Components(".") == []
  {
    EmptyIsResolved(true);
    EmptyIsResolved(false);
    ComponentsOfShow(true, []);
    ComponentsOfShow(false, []);
    assert Show(true, []) == "/" && Show(false, []) == ".";
  }

  /** Exactly when the guard lets an entry through. */
  lemma GuardPassesIff(dest: string, name: string)
    ensures Guard(dest, name)
       <==> dest == "" || Usable(dest) || ((dest == "/" || dest == ".") && Relative(name) == "/")
  {
    hide Resolved, Components, Show, Clean;
    if dest == "" {
      TargetWithoutDestination(name);
    } else {
      var below := TargetIsShown(dest, name);
      var all := Components(dest) + below;
      if Usable(dest) {
        TargetIsInside(dest, name);
      } else if all != [] {
        assert Guard(dest, name) ==> false by {
          if Guard(dest, name) { PrefixIsClean(dest, all); }
        }
        ComponentsOfNoComponents();
        assert below == [] ==> all == Components(dest);
      } else {
        RootOrCurrent(dest);
      }
    }
  }

  lemma TargetWithoutDestination(name: string)
    ensures Guard("", name) && Target("", name) == Relative(name)
  {
    CleanIsIdempotent("/" + name);
    var below := RelativeNeverClimbs(name);
    hide Components;
  }

  lemma RootOrCurrent(dest: string)
    requires dest != "" && Components(dest) == []
    ensures HasPrefix(Show(Rooted(dest), []) + "/", dest + "/") <==> dest == "/" || dest == "."
  {
    hide Components;
    var shown := Show(Rooted(dest), []);
    assert shown == if Rooted(dest) then "/" else ".";
    if HasPrefix(shown + "/", dest + "/") {
      assert |dest| == 1 && (shown + "/")[0] == (dest + "/")[0] == dest[0];
    }
  }

  /**
    The guard never rejects a legitimate archive exactly when the destination is usable; otherwise
    it rejects nearly every entry.
   */
  lemma EveryEntryPassesIff(dest: string)
    ensures (forall name :: Guard(dest, name)) <==> dest == "" || Usable(dest)
    ensures !(dest == "" || Usable(dest)) ==> forall name :: Relative(name) != "/" ==> !Guard(dest, name)
  {
    forall name ensures Guard(dest, name)
       <==> dest == "" || Usable(dest) || ((dest == "/" || dest == ".") && Relative(name) == "/")
    {
      GuardPassesIff(dest, name);
    }
    SingleComponent("x");
    hide Usable, Guard, Relative;
    assert !Usable(dest) && dest != "" ==> !Guard(dest, "x");
  }

  lemma SingleComponent(w: string)
    requires Plain(w)
    ensures Relative(w) == "/" + w && Usable("/" + w) && Relative(w) != "/"
  {
    assert Resolved(true, [w]);
    hide Resolved, Components;
    ComponentsOfShow(true, [w]);
    assert Show(true, [w]) == "/" + w;
  }

  // ---- the temporary directory ----

  /** os.MkdirTemp: the new directory's name under dir. */
  function TempName(dir: string, base: string): string {
    if dir != "" && dir[|dir| - 1] == '/' then dir + base else dir + "/" + base
  }

  /** dir without one trailing slash */
  function Stem(dir: string): string {
    if dir != "" && dir[|dir| - 1] == '/' then dir[..|dir| - 1] else dir
  }

  lemma TempNameIsBelowStem(dir: string, base: string)
    ensures TempName(dir, base) == Stem(dir) + "/" + base
  {
  }

  /**
    The archive directory made under the system's temporary directory accepts
    entries exactly when that setting is a clean path, up to one trailing slash.
   */
  lemma TempDirAcceptsIff(dir: string, base: string)
    requires dir != "" && Plain(base)
    ensures Usable(TempName(dir, base)) <==> Stem(dir) == "" || Usable(Stem(dir))
  {
    TempNameIsBelowStem(dir, base);
    hide Components, Plain, TempName, Stem;
    var stem, name := Stem(dir), TempName(dir, base);
    if stem == "" {
      SingleComponent(base);
      assert name == "/" + base;
    } else {
      ChildOf(stem, base);
      ComponentsOfNoComponents();
      if Usable(stem) { UsableHasComponents(stem); }
      var clean := Clean(stem);
      assert clean + "/" + base == name ==> |clean| == |stem| && clean == name[..|stem|] == stem;
    }
  }

  lemma ChildOf(stem: string, base: string)
    requires stem != "" && Plain(base)
    ensures Clean(stem + "/" + base)
            == if Components(stem) == [] then (if Rooted(stem) then "/" + base else base)
               else Clean(stem) + "/" + base
    ensures Clean(stem + "/" + base) != "/" && Clean(stem + "/" + base) != "."
  {
    var c := Components(stem);
    CleanBelow(stem, [base]);
    ShowAppend(Rooted(stem), c, base);
    assert Join([base], '/') == base && base != "" && base != ".";
    CleanIsNotEmpty(stem);
    hide Components, Resolved, Join, Show, Rooted;
    assert Clean(stem + "/" + base) == Show(Rooted(stem), c + [base]);
    assert c == [] && Rooted(stem) ==> Clean(stem + "/" + base) == "/" + base && |"/" + base| > 1;
  }

  lemma CleanIsNotEmpty(path: string)
    ensures Clean(path) != ""
  {
    ComponentsAreResolved(path);
    NotEmpty(Rooted(path), Components(path));
  }

  // ---- the extraction loop ----

  datatype Kind = Directory | Regular | OtherKind

  /** A tar entry, and how the file system answers for it. */
  datatype Entry = Entry(name: string, kind: Kind, mkdirOk: bool, openOk: bool, copyOk: bool)

  datatype Op = MakeDir(path: string) | WriteFile(path: string)

  datatype Failure = NoFailure | BadStream | Escapes | MakeDirFailed | OpenFailed | CopyFailed

  function EntryOps(dest: string, e: Entry): seq<Op> {
    match e.kind
    case Directory => [MakeDir(Target(dest, e.name))]
    case Regular => [MakeDir(Parent(Target(dest, e.name))), WriteFile(Target(dest, e.name))]
    case OtherKind => []
  }

  function AllOps(dest: string, es: seq<Entry>): seq<Op> {
    if es == [] then [] else AllOps(dest, es[..|es| - 1]) + EntryOps(dest, es[|es| - 1])
  }

  predicate EntryFine(e: Entry) {
    match e.kind
    case Directory => e.mkdirOk
    case Regular => e.mkdirOk && e.openOk && e.copyOk
    case OtherKind => true
  }

  predicate AllFine(es: seq<Entry>) { forall i | 0 <= i < |es| :: EntryFine(es[i]) }

  predicate AllPass(dest: string, es: seq<Entry>) { forall i | 0 <= i < |es| :: Guard(dest, es[i].name) }

  lemma {:induction false} AllOpsSplit(dest: string, a: seq<Entry>, b: seq<Entry>)
    ensures AllOps(dest, a + b) == AllOps(dest, a) + AllOps(dest, b)
    decreases |b|
  {
    hide EntryOps;
    if b == [] {
      assert a + b == a;
    } else {
      var all := a + b;
      assert all[|all| - 1] == b[|b| - 1] && all[..|all| - 1] == a + b[..|b| - 1];
      AllOpsSplit(dest, a, b[..|b| - 1]);
    }
  }

  lemma NothingDone(dest: string, es: seq<Entry>)
    ensures AllPass(dest, es[..0]) && AllFine(es[..0]) && AllOps(dest, es[..0]) == []
  {
  }

  lemma OpsStep(dest: string, es: seq<Entry>, i: nat)
    requires i < |es|
    ensures AllOps(dest, es[..i + 1]) == AllOps(dest, es[..i]) + EntryOps(dest, es[i])
    ensures AllOps(dest, es[..i]) + EntryOps(dest, es[i]) <= AllOps(dest, es)
  {
    hide EntryOps;
    assert es[..i + 1][..i] == es[..i];
    assert es == es[..i + 1] + es[i + 1..];
    AllOpsSplit(dest, es[..i + 1], es[i + 1..]);
  }

  lemma PassStep(dest: string, es: seq<Entry>, i: nat)
    requires i < |es|
    ensures AllPass(dest, es[..i]) && Guard(dest, es[i].name) ==> AllPass(dest, es[..i + 1])
    ensures !Guard(dest, es[i].name) ==> !AllPass(dest, es)
  {
    hide Guard;
    assert forall k | 0 <= k < i :: es[..i + 1][k] == es[..i][k];
  }

  lemma FineStep(es: seq<Entry>, i: nat)
    requires i < |es|
    ensures AllFine(es[..i]) && EntryFine(es[i]) ==> AllFine(es[..i + 1])
    ensures !EntryFine(es[i]) ==> !AllFine(es)
  {
    hide EntryFine;
    assert forall k | 0 <= k < i :: es[..i + 1][k] == es[..i][k];
  }

  lemma FineAndPass(dest: string, es: seq<Entry>)
    ensures AllPass(dest, es) && AllFine(es) <==>
            forall i | 0 <= i < |es| ::
              var e := es[i];
              && Guard(dest, e.name)
              && (e.kind != OtherKind ==> e.mkdirOk)
              && (e.kind == Regular ==> e.openOk && e.copyOk)
  {
    hide Guard;
    assert AllFine(es) <==>
           forall i | 0 <= i < |es| ::
             (es[i].kind != OtherKind ==> es[i].mkdirOk) && (es[i].kind == Regular ==> es[i].openOk && es[i].copyOk);
  }

  // ---- what a complete extraction has done ----

  /** The paths written, in order. */
  function Files(ops: seq<Op>): seq<string> {
    if ops == [] then []
    else Files(ops[..|ops| - 1]) + if ops[|ops| - 1].WriteFile? then [ops[|ops| - 1].path] else []
  }

  /** The targets of the regular entries, in order. */
  function RegularTargets(dest: string, es: seq<Entry>): seq<string> {
    if es == [] then []
    else RegularTargets(dest, es[..|es| - 1])
         + if es[|es| - 1].kind == Regular then [Target(dest, es[|es| - 1].name)] else []
  }

  /** The entry's directory is made, or its file written right after the directory it is in. */
  ghost predicate EntryDone(dest: string, e: Entry, ops: seq<Op>) {
    && (e.kind == Directory ==> MakeDir(Target(dest, e.name)) in ops)
    && (e.kind == Regular ==> exists k :: WrittenAt(ops, k, Target(dest, e.name)))
  }

  predicate WrittenAt(ops: seq<Op>, k: int, target: string) {
    0 <= k < |ops| - 1 && ops[k] == MakeDir(Parent(target)) && ops[k + 1] == WriteFile(target)
  }

  /**
    Every directory and every regular entry is done, the files written are those of the regular
    entries, in order, and nothing else is done.
   */
  ghost predicate Complete(dest: string, es: seq<Entry>, ops: seq<Op>) {
    && (forall i | 0 <= i < |es| :: EntryDone(dest, es[i], ops))
    && Files(ops) == RegularTargets(dest, es)
    && |ops| == OpCount(es)
  }

  /** One operation for each directory, two for each file, none for other entries. */
  function OpCount(es: seq<Entry>): nat {
    if es == [] then 0
    else OpCount(es[..|es| - 1])
         + (if es[|es| - 1].kind == Directory then 1 else if es[|es| - 1].kind == Regular then 2 else 0)
  }

  lemma FilesGrow(ops: seq<Op>, op: Op)
    ensures Files(ops + [op]) == Files(ops) + if op.WriteFile? then [op.path] else []
  {
    assert (ops + [op])[..|ops|] == ops;
  }

  lemma EntryStaysDone(dest: string, e: Entry, ops: seq<Op>, more: seq<Op>)
    requires EntryDone(dest, e, ops)
    ensures EntryDone(dest, e, ops + more)
  {
    hide Target, Parent;
    if e.kind == Regular {
      var k :| WrittenAt(ops, k, Target(dest, e.name));
      assert WrittenAt(ops + more, k, Target(dest, e.name));
    }
  }

  lemma LastEntryDone(dest: string, e: Entry, ops: seq<Op>)
    ensures EntryDone(dest, e, ops + EntryOps(dest, e))
    ensures Files(ops + EntryOps(dest, e)) == Files(ops) + if e.kind == Regular then [Target(dest, e.name)] else []
  {
    var target := Target(dest, e.name);
    hide Target, Parent, Files;
    match e.kind
    case Directory => FilesGrow(ops, MakeDir(target));
    case Regular =>
      FilesGrow(ops, MakeDir(Parent(target)));
      FilesGrow(ops + [MakeDir(Parent(target))], WriteFile(target));
      assert ops + EntryOps(dest, e) == ops + [MakeDir(Parent(target))] + [WriteFile(target)];
      assert WrittenAt(ops + EntryOps(dest, e), |ops|, target);
    case OtherKind => assert ops + [] == ops;
  }

  /** The operations of all entries leave nothing undone. */
  lemma {:induction false} ExtractionIsComplete(dest: string, es: seq<Entry>)
    ensures Complete(dest, es, AllOps(dest, es))
  {
    hide EntryDone, EntryOps, Files, Target;
    if es == [] {
      assert Files([]) == [] by { FilesOfNothing(); }
    } else {
      var front, e := es[..|es| - 1], es[|es| - 1];
      var ops := AllOps(dest, front);
      ExtractionIsComplete(dest, front);
      LastEntryDone(dest, e, ops);
      CountEntryOps(dest, e);
      AllStayDone(dest, front, ops, EntryOps(dest, e));
      hide AllOps, RegularTargets, OpCount;
      forall i | 0 <= i < |es| ensures EntryDone(dest, es[i], ops + EntryOps(dest, e)) {
        assert i < |front| ==> es[i] == front[i];
      }
    }
  }

  lemma FilesOfNothing()
    ensures Files([]) == []
  {}

  lemma CountEntryOps(dest: string, e: Entry)
    ensures |EntryOps(dest, e)| == if e.kind == Directory then 1 else if e.kind == Regular then 2 else 0
  {}

  lemma AllStayDone(dest: string, es: seq<Entry>, ops: seq<Op>, more: seq<Op>)
    requires forall i | 0 <= i < |es| :: EntryDone(dest, es[i], ops)
    ensures forall i | 0 <= i < |es| :: EntryDone(dest, es[i], ops + more)
  {
    hide EntryDone;
    forall i | 0 <= i < |es| ensures EntryDone(dest, es[i], ops + more) {
      EntryStaysDone(dest, es[i], ops, more);
    }
  }

  /** Where and why an extraction stops early: all entries before are done, and of this one as much as succeeded. */
  predicate StopsAt(dest: string, es: seq<Entry>, i: nat, failure: Failure, ops: seq<Op>) {
    && i < |es| && AllPass(dest, es[..i]) && AllFine(es[..i])
    && var (e, before) := (es[i], AllOps(dest, es[..i]));
    && (failure.Escapes? <==> !Guard(dest, e.name))
    && match failure
       case Escapes => ops == before
       case MakeDirFailed => e.kind != OtherKind && !e.mkdirOk && ops == before
       case OpenFailed =>
         e.kind == Regular && e.mkdirOk && !e.openOk && ops == before + [MakeDir(Parent(Target(dest, e.name)))]
       case CopyFailed =>
         && e.kind == Regular && e.mkdirOk && e.openOk && !e.copyOk
         && ops == before + [MakeDir(Parent(Target(dest, e.name))), WriteFile(Target(dest, e.name))]
       case _ => false
  }

  /** The loop of downloadAndExtract: streamOk says whether the archive ends without a read error. */
  method Extract(dest: string, entries: seq<Entry>, streamOk: bool)
    returns (failure: Failure, ops: seq<Op>)
    ensures failure.NoFailure? <==> streamOk && AllPass(dest, entries) && AllFine(entries)
    ensures failure.NoFailure? <==>
              streamOk && forall i | 0 <= i < |entries| ::
                var e := entries[i];
                && Guard(dest, e.name)
                && (e.kind != OtherKind ==> e.mkdirOk)
                && (e.kind == Regular ==> e.openOk && e.copyOk)
    ensures failure.NoFailure? ==> ops == AllOps(dest, entries) && Complete(dest, entries, ops)
    ensures ops <= AllOps(dest, entries)
    ensures !failure.NoFailure? && !failure.BadStream? ==> exists i: nat :: StopsAt(dest, entries, i, failure, ops)
    ensures failure.BadStream? ==> !streamOk && ops == AllOps(dest, entries)
  {
    hide Target, HasPrefix, Parent, AllOps, AllPass, AllFine, Complete;
    ops := [];
    NothingDone(dest, entries);
    FineAndPass(dest, entries);
    ExtractionIsComplete(dest, entries);
    for i := 0 to |entries|
      invariant AllPass(dest, entries[..i]) && AllFine(entries[..i])
      invariant ops == AllOps(dest, entries[..i])
    {
      var e := entries[i];
      var target := Target(dest, e.name);
      OpsStep(dest, entries, i);
      PassStep(dest, entries, i);
      FineStep(entries, i);
      if !HasPrefix(target + "/", dest + "/") {
        assert StopsAt(dest, entries, i, Escapes, ops);
        return Escapes, ops;
      }
      match e.kind {
        case Directory =>
          if !e.mkdirOk {
            assert StopsAt(dest, entries, i, MakeDirFailed, ops);
            return MakeDirFailed, ops;
          }
          ops := ops + [MakeDir(target)];
        case Regular =>
          if !e.mkdirOk {
            assert StopsAt(dest, entries, i, MakeDirFailed, ops);
            return MakeDirFailed, ops;
          }
          ops := ops + [MakeDir(Parent(target))];
          if !e.openOk {
            assert StopsAt(dest, entries, i, OpenFailed, ops);
            return OpenFailed, ops;
          }
          ops := ops + [WriteFile(target)];
          if !e.copyOk {
            assert StopsAt(dest, entries, i, CopyFailed, ops);
            return CopyFailed, ops;
          }
        case OtherKind =>
      }
    }
    assert entries[..|entries|] == entries;
    failure := if streamOk then NoFailure else BadStream;
  }

  // ---- what extraction touches ----

  lemma {:induction false} UpToSlashOf(front: string, w: string)
    requires front == "" || front[|front| - 1] == '/'
    requires Free(w, '/')
    ensures UpToSlash(front + w) == front
  {
    if w == "" {
      assert front + w == front;
    } else {
      var s := front + w;
      assert s[|s| - 1] == w[|w| - 1] && s[..|s| - 1] == front + w[..|w| - 1];
      UpToSlashOf(front, w[..|w| - 1]);
    }
  }

  /** The parent of a clean path lacks its last component. */
  lemma ParentOfShow(rooted: bool, cs: seq<string>)
    requires Resolved(rooted, cs) && cs != []
    ensures Parent(Show(rooted, cs)) == Show(rooted, cs[..|cs| - 1])
  {
    var up, w := cs[..|cs| - 1], cs[|cs| - 1];
    assert cs == up + [w];
    ResolvedAreFree(rooted, cs);
    ResolvedPrefix(rooted, up, [w]);
    ShowRooted(rooted, up);
    assert AllPlain([]);
    assert Join([], '/') == "" && Show(rooted, []) == if rooted then "/" else ".";
    ShowAppend(rooted, up, w);
    hide Resolved, Components, Free, Split, AllPlain, Rooted, UpToSlash, Resolve, Show, Join;
    var front := if up != [] then Show(rooted, up) + "/" else if rooted then "/" else "";
    UpToSlashOf(front, w);
    assert Show(rooted, cs) == front + w;
    if up == [] {
      ComponentsOfNothing();
    } else {
      var shown := Show(rooted, up);
      NotEmpty(rooted, up);
      CleanBelow(shown, []);
      ComponentsOfShow(rooted, up);
      assert shown + "/" + "" == front && up + [] == up;
    }
  }

  lemma NotEmpty(rooted: bool, cs: seq<string>)
    requires Resolved(rooted, cs)
    ensures Show(rooted, cs) != ""
  {
    if cs != [] {
      assert Plain(cs[0]) || cs[0] == "..";
      JoinHead(cs);
    }
  }

  lemma ComponentsOfNothing()
    ensures Clean("") == "." && Clean("/") == "/"
  {
    SplitFree("", '/');
    ResolveEmpty(false, []);
    ComponentsOfNoComponents();
    hide Split, Resolve;
  }

  /** path is a clean path at or below dest, component by component. */
  predicate Inside(dest: string, path: string) {
    Clean(path) == path && Rooted(path) == Rooted(dest) && Components(dest) <= Components(path)
  }

  lemma EntryStaysInside(dest: string, e: Entry)
    requires Usable(dest)
    ensures Inside(dest, Target(dest, e.name))
    ensures Relative(e.name) != "/" ==> Inside(dest, Parent(Target(dest, e.name)))
    ensures Relative(e.name) == "/" ==> Target(dest, e.name) == dest
  {
    hide Components, Resolved, Relative, Parent, AllPlain, Show, Rooted;
    var r, top := Rooted(dest), Components(dest);
    var below := TargetIsShown(dest, e.name);
    TargetIsInside(dest, e.name);
    var all := top + below;
    ComponentsOfShow(r, all);
    ShowRooted(r, all);
    if below != [] {
      ParentOfShow(r, all);
      var up := all[..|all| - 1];
      assert all == up + [all[|all| - 1]] && up == top + below[..|below| - 1];
      ResolvedPrefix(r, up, [all[|all| - 1]]);
      ComponentsOfShow(r, up);
      ShowRooted(r, up);
    }
  }

  /** Everything extraction makes or writes lies inside a usable destination, whatever the archive names. */
  lemma {:induction false} ExtractionStaysInside(dest: string, es: seq<Entry>, i: nat)
    requires Usable(dest) && i < |AllOps(dest, es)|
    ensures var op := AllOps(dest, es)[i];
            Inside(dest, op.path) || (op.MakeDir? && op.path == Parent(dest))
    decreases |es|
  {
    hide Inside, Parent, Target, Usable;
    if es != [] {
      var front, e := es[..|es| - 1], es[|es| - 1];
      if i < |AllOps(dest, front)| {
        ExtractionStaysInside(dest, front, i);
      } else {
        EntryStaysInside(dest, e);
      }
    }
  }

  lemma FirstPasses(dest: string, es: seq<Entry>, i: nat)
    requires 0 < i <= |es| && AllPass(dest, es[..i])
    ensures Guard(dest, es[0].name)
  {
    assert Guard(dest, es[..i][0].name);
  }

  /** A destination that is not usable fails the archive at its first real entry, with nothing written. */
  lemma UnusableDestinationWritesNothing(dest: string, es: seq<Entry>)
    requires dest != "" && !Usable(dest)
    requires es != [] && Relative(es[0].name) != "/"
    ensures !AllPass(dest, es) && (forall i: nat | i <= |es| && AllPass(dest, es[..i]) :: AllOps(dest, es[..i]) == [])
  {
    GuardPassesIff(dest, es[0].name);
    hide Guard, Usable, EntryOps, Relative;
    forall i: nat | i <= |es| && AllPass(dest, es[..i]) ensures AllOps(dest, es[..i]) == [] {
      if i > 0 {
        FirstPasses(dest, es, i);
        assert false;
      }
    }
  }

  // ---- what cleaning means ----

  lemma SplitOne(c: string)
    requires Free(c, '/')
    ensures Split(c, '/') == [c]
  {
    SplitFree(c, '/');
  }

  lemma OneStep(path: string, c: string)
    requires path != "" && Free(c, '/')
    ensures Rooted(path + "/" + c) == Rooted(path)
    ensures Components(path + "/" + c) == StepInto(Rooted(path), Components(path), c)
  {
    SplitOne(c);
    ComponentsOfLonger(path, c);
    assert [c][1..] == [];
    hide Components, StepInto, Split;
  }

  /** Going down to a plain name and up again, staying where one is, and doubling a slash change nothing. */
  lemma DetoursVanish(path: string, w: string)
    requires path != "" && Plain(w)
    ensures Clean(path + "/" + w + "/" + "..") == Clean(path)
    ensures Clean(path + "/" + ".") == Clean(path)
    ensures Clean(path + "/" + "") == Clean(path)
  {
    OneStep(path, w);
    OneStep(path + "/" + w, "..");
    OneStep(path, ".");
    FreeEmpty();
    OneStep(path, "");
    var c := Components(path);
    assert (c + [w])[..|c|] == c;
    hide Components, Show, Rooted;
  }

  /** Above the root is the root; a relative path goes up past its beginning. */
  lemma UpFromTheTop()
    ensures Clean("/..") == "/" && Clean("..") == ".." && Clean("../..") == "../.."
  {
    SplitOne("..");
    SplitHead("", "..", '/');
    SplitHead("..", "..", '/');
    assert "" + ['/'] + ".." == "/.." && ".." + ['/'] + ".." == "../..";
    hide Split;
    assert Split("/..", '/') == ["", ".."] && Split("../..", '/') == ["..", ".."];
    assert ["", ".."][1..] == [".."] && ["..", ".."][1..] == [".."] && [".."][1..] == [];
    assert Resolve(true, [], ["", ".."]) == Resolve(true, [], [".."]) == Resolve(true, [], []) == [];
    assert Resolve(false, [], [".."]) == Resolve(false, [".."], []) == [".."];
    assert Resolve(false, [], ["..", ".."]) == Resolve(false, [".."], [".."]) == Resolve(false, ["..", ".."], []);
    assert [".."] + [".."] == ["..", ".."];
    assert Join([".."], '/') == ".." && Join(["..", ".."], '/') == "../.." && Join([], '/') == "";
  }
}

/**
 * Collection of documents over an in-memory file tree. A node is a directory
 * with its entries in listing order, or a file with the text reading it yields
 * and whether reading it succeeds (for a PDF, the text extraction yields).
 */
module Collector {
  import opened Wrappers

  datatype Node =
    | Dir(name: string, entries: seq<Node>)
    | File(name: string, content: string, readable: bool)

  /** A collected document: its path label and its text. */
  datatype Doc = Doc(path: string, content: string)

  /** The extensions planning collects, PDF included. */
  const PlanningExtensions := [".md", ".txt", ".js", ".json", ".py", ".java", ".c", ".cpp", ".pdf"]
  /** The extensions summarize collects: the same list without PDF. */
  const SummaryExtensions := [".md", ".txt", ".js", ".json", ".py", ".java", ".c", ".cpp"]

  /** The last index of `c` in `s`, or -1. */
  function LastIndexOf(s: string, c: char): (r: int)
    ensures -1 <= r < |s|
    ensures r == -1 ==> c !in s
    ensures r >= 0 ==> s[r] == c && forall k :: r < k < |s| ==> s[k] != c
  {
    if s == [] then -1
    else if s[|s| - 1] == c then |s| - 1
    else
      var r := LastIndexOf(s[..|s| - 1], c);
      assert forall k :: 0 <= k < |s| - 1 ==> s[k] == s[..|s| - 1][k];
      r
  }

  /** `path.extname` of a file name: from the last dot on, unless that dot starts the name; empty for "..". */
  function Extname(name: string): (r: string)
    ensures r == "" || (|r| <= |name| && r == name[|name| - |r|..] && r[0] == '.' && '.' !in r[1..])
  {
    var k := LastIndexOf(name, '.');
    if k <= 0 || name == ".." then "" else name[k..]
  }

  /** `toLowerCase` on the ASCII letters; no extension on the lists has a non-ASCII letter. */
  function AsciiLower(s: string): (r: string)
    ensures |r| == |s|
  {
    if s == [] then []
    else [if 'A' <= s[0] <= 'Z' then (s[0] as int + 32) as char else s[0]] + AsciiLower(s[1..])
  }

  /** A file is collected only when its lower-cased extension is on the list. */
  predicate AllowedName(name: string, allowed: seq<string>) {
    AsciiLower(Extname(name)) in allowed
  }

  /** The documents of the first `n` entries of directory `d`, labelled `prefix` + their path below `d`. */
  function Walk(d: Node, prefix: string, allowed: seq<string>, n: nat): seq<Doc>
    requires d.Dir? && n <= |d.entries|
    decreases d, n
  {
    if n == 0 then [] else Walk(d, prefix, allowed, n - 1) + Visit(d.entries[n - 1], prefix, allowed)
  }

  /** The documents one entry contributes: a directory's whole walk, or an allowed, readable file. */
  function Visit(e: Node, prefix: string, allowed: seq<string>): seq<Doc>
    decreases e, if e.Dir? then |e.entries| + 1 else 0
  {
    match e
    case Dir(name, es) => Walk(e, prefix + name + "/", allowed, |es|)
    case File(name, content, readable) =>
      if AllowedName(name, allowed) && readable then [Doc(prefix + name, content)] else []
  }

  /** All documents below directory `d`. */
  function DirDocs(d: Node, prefix: string, allowed: seq<string>): seq<Doc>
    requires d.Dir?
  {
    Walk(d, prefix, allowed, |d.entries|)
  }

  /** `walkDir`: appends the documents below `d` to `collected`, depth first in listing order. */
  method WalkDir(d: Node, prefix: string, allowed: seq<string>, collected: seq<Doc>) returns (out: seq<Doc>)
    requires d.Dir?
    ensures out == collected + DirDocs(d, prefix, allowed)
    decreases d
  {
    out := collected;
    var i := 0;
    while i < |d.entries|
      invariant i <= |d.entries|
      invariant out == collected + Walk(d, prefix, allowed, i)
    {
      var e := d.entries[i];
      if e.Dir? {
        out := WalkDir(e, prefix + e.name + "/", allowed, out);
      } else if AllowedName(e.name, allowed) && e.readable {
        out := out + [Doc(prefix + e.name, e.content)];
      }
      i := i + 1;
    }
  }

  /** The first entry of `es` named `name`: resolving one path component. */
  function Lookup(es: seq<Node>, name: string): (r: Option<Node>)
    ensures r.Some? ==> r.value in es && r.value.name == name
    ensures r.None? ==> forall k :: 0 <= k < |es| ==> es[k].name != name
  {
    if es == [] then None else if es[0].name == name then Some(es[0]) else Lookup(es[1..], name)
  }

  /** What planning collects from its target: nothing when missing, a single file under its base name, or a directory's walk with paths relative to it. */
  function PlanningDocs(target: Option<Node>): seq<Doc> {
    match target
    case None => []
    case Some(n) =>
      match n
      case File(name, content, readable) =>
        if AllowedName(name, PlanningExtensions) && readable then [Doc(name, content)] else []
      case Dir(_, _) => DirDocs(n, "", PlanningExtensions)
  }

  /** Planning's `collectFilesForSubject` over its resolved target. */
  method CollectForPlanning(target: Option<Node>) returns (docs: seq<Doc>)
    ensures docs == PlanningDocs(target)
  {
    docs := [];
    if target.Some? {
      var n := target.value;
      if n.Dir? {
        docs := WalkDir(n, "", PlanningExtensions, docs);
      } else if AllowedName(n.name, PlanningExtensions) && n.readable {
        docs := docs + [Doc(n.name, n.content)];
      }
    }
  }

  /** The name of the content root directory, which no document label shows. */
  const ContentRootName := "content"

  /** A subject that `path.join(CONTENT_ROOT, subject)` reduces to the content root itself. */
  predicate IsRootSubject(subject: string) {
    subject == "" || subject == "."
  }

  /** `path.join(CONTENT_ROOT, subject)` in the tree: the content root itself for "" and ".", otherwise its entry of that name. */
  function Resolve(root: seq<Node>, subject: string): (r: Option<Node>)
    ensures IsRootSubject(subject) ==> r == Some(Dir(ContentRootName, root))
    ensures !IsRootSubject(subject) ==> r == Lookup(root, subject)
  {
    if IsRootSubject(subject) then Some(Dir(ContentRootName, root)) else Lookup(root, subject)
  }

  /** `path.relative(CONTENT_ROOT, p)` below the subject directory: nothing for the root itself, `subject/` otherwise. */
  function SubjectPrefix(subject: string): string {
    if IsRootSubject(subject) then "" else subject + "/"
  }

  /** What summarize collects for a subject: the walk of the subject directory under the content root, paths relative to the root; nothing otherwise. */
  function SummaryDocs(root: seq<Node>, subject: string): seq<Doc> {
    match Resolve(root, subject)
    case Some(n) => if n.Dir? then DirDocs(n, SubjectPrefix(subject), SummaryExtensions) else []
    case None => []
  }

  /** Summarize's `collectFilesForSubject`. */
  method CollectForSummary(root: seq<Node>, subject: string) returns (docs: seq<Doc>)
    ensures docs == SummaryDocs(root, subject)
  {
    docs := [];
    var n := Resolve(root, subject);
    if n.None? || !n.value.Dir? {
      return;
    }
    docs := WalkDir(n.value, SubjectPrefix(subject), SummaryExtensions, docs);
  }

  // -----------------------------------------------------------------------
  // Properties of collection
  // -----------------------------------------------------------------------

  /** `path.extname` is non-empty exactly when the name has a dot after its first character and is not "..". */
  lemma ExtnameSpec(name: string)
    ensures Extname(name) != "" <==> name != ".." && exists k :: 0 < k < |name| && name[k] == '.'
  {
    var k := LastIndexOf(name, '.');
    if exists j :: 0 < j < |name| && name[j] == '.' {
      var j :| 0 < j < |name| && name[j] == '.';
      assert k >= j;
    }
  }

  /** PDF files are collected by planning but never by summarize. */
  lemma PdfOnlyForPlanning(name: string)
    requires AsciiLower(Extname(name)) == ".pdf"
    ensures AllowedName(name, PlanningExtensions)
    ensures !AllowedName(name, SummaryExtensions)
  {
    assert PlanningExtensions[8] == ".pdf";
    assert forall k :: 0 <= k < |SummaryExtensions| ==> SummaryExtensions[k] != ".pdf";
  }

  /** A collected document: its path extends the prefix and ends in a name whose extension is allowed. */
  predicate Labelled(doc: Doc, prefix: string, allowed: seq<string>) {
    prefix <= doc.path && exists j :: |prefix| <= j <= |doc.path| && AllowedName(doc.path[j..], allowed)
  }

  lemma {:induction false} WalkLabelled(d: Node, prefix: string, allowed: seq<string>, n: nat)
    requires d.Dir? && n <= |d.entries|
    ensures forall doc :: doc in Walk(d, prefix, allowed, n) ==> Labelled(doc, prefix, allowed)
    decreases d, n
  {
    if n > 0 {
      WalkLabelled(d, prefix, allowed, n - 1);
      VisitLabelled(d.entries[n - 1], prefix, allowed);
    }
  }

  lemma {:induction false} VisitLabelled(e: Node, prefix: string, allowed: seq<string>)
    ensures forall doc :: doc in Visit(e, prefix, allowed) ==> Labelled(doc, prefix, allowed)
    decreases e, if e.Dir? then |e.entries| + 1 else 0
  {
    match e
    case Dir(name, es) =>
      var inner := prefix + name + "/";
      WalkLabelled(e, inner, allowed, |es|);
      forall doc | doc in Visit(e, prefix, allowed)
        ensures Labelled(doc, prefix, allowed)
      {
        assert Labelled(doc, inner, allowed);
        var j :| |inner| <= j <= |doc.path| && AllowedName(doc.path[j..], allowed);
        assert prefix <= inner;
      }
    case File(name, content, readable) =>
      if AllowedName(name, allowed) && readable {
        var doc := Doc(prefix + name, content);
        assert doc.path[|prefix|..] == name;
      }
  }

  /** Every document collected below a directory is labelled below the prefix with an allowed extension. */
  lemma DirDocsLabelled(d: Node, prefix: string, allowed: seq<string>)
    requires d.Dir?
    ensures forall doc :: doc in DirDocs(d, prefix, allowed) ==> Labelled(doc, prefix, allowed)
  {
    WalkLabelled(d, prefix, allowed, |d.entries|);
  }

  lemma {:induction false} WalkWider(d: Node, prefix: string, a: seq<string>, b: seq<string>, n: nat)
    requires d.Dir? && n <= |d.entries|
    requires forall x :: x in a ==> x in b
    ensures forall doc :: doc in Walk(d, prefix, a, n) ==> doc in Walk(d, prefix, b, n)
    decreases d, n
  {
    if n > 0 {
      WalkWider(d, prefix, a, b, n - 1);
      VisitWider(d.entries[n - 1], prefix, a, b);
    }
  }

  lemma {:induction false} VisitWider(e: Node, prefix: string, a: seq<string>, b: seq<string>)
    requires forall x :: x in a ==> x in b
    ensures forall doc :: doc in Visit(e, prefix, a) ==> doc in Visit(e, prefix, b)
    decreases e, if e.Dir? then |e.entries| + 1 else 0
  {
    if e.Dir? {
      WalkWider(e, prefix + e.name + "/", a, b, |e.entries|);
    }
  }

  /** Whatever summarize collects below a directory, planning collects too. */
  lemma SummaryWithinPlanning(d: Node, prefix: string)
    requires d.Dir?
    ensures forall doc :: doc in DirDocs(d, prefix, SummaryExtensions) ==> doc in DirDocs(d, prefix, PlanningExtensions)
  {
    WalkWider(d, prefix, SummaryExtensions, PlanningExtensions, |d.entries|);
  }

  /**
   * Summarize collects nothing for a missing subject or one that is a file,
   * the whole content tree for "" and ".", and labels documents of a subject
   * directory `subject/...`.
   */
  lemma SummaryDocsSpec(root: seq<Node>, subject: string)
    ensures !IsRootSubject(subject) && Lookup(root, subject).None? ==> SummaryDocs(root, subject) == []
    ensures !IsRootSubject(subject) && Lookup(root, subject).Some? && Lookup(root, subject).value.File? ==> SummaryDocs(root, subject) == []
    ensures IsRootSubject(subject) ==> SummaryDocs(root, subject) == DirDocs(Dir(ContentRootName, root), "", SummaryExtensions)
    ensures !IsRootSubject(subject) ==> forall doc :: doc in SummaryDocs(root, subject) ==> Labelled(doc, subject + "/", SummaryExtensions)
  {
    var n := Resolve(root, subject);
    if n.Some? && n.value.Dir? {
      DirDocsLabelled(n.value, SubjectPrefix(subject), SummaryExtensions);
    }
  }

  /** Planning collects nothing for a missing target, a single allowed readable file under its own name, and labels a directory's documents relative to it. */
  lemma PlanningDocsSpec(target: Option<Node>)
    ensures target.None? ==> PlanningDocs(target) == []
    ensures target.Some? && target.value.File? ==>
      PlanningDocs(target) == (if AllowedName(target.value.name, PlanningExtensions) && target.value.readable
        then [Doc(target.value.name, target.value.content)] else [])
    ensures forall doc :: doc in PlanningDocs(target) ==> Labelled(doc, "", PlanningExtensions)
  {
    if target.Some? {
      var n := target.value;
      if n.Dir? {
        DirDocsLabelled(n, "", PlanningExtensions);
      } else if AllowedName(n.name, PlanningExtensions) && n.readable {
        assert Doc(n.name, n.content).path[0..] == n.name;
      }
    }
  }
}

/** The KongFile resource and the portal file it is rendered to. */
module KongFiles {
  import opened Wrappers
  import opened Strings

  const CONTENT := "CONTENT"
  const SPECIFICATION := "SPECIFICATION"
  const ASSET := "ASSET"

  datatype KongFileSpec = KongFileSpec(
    layout: string, path: string, title: string, name: string, content: string, kind: string)

  datatype KongFileStatus = KongFileStatus(validated: bool)

  datatype ObjectMeta = ObjectMeta(
    namespace: string, name: string, annotations: map<string, string>,
    deletionTimestamp: Option<nat>, uid: nat, resourceVersion: nat)

  /** One version of a resource, as a value. */
  datatype KongFile = KongFile(meta: ObjectMeta, spec: KongFileSpec, status: KongFileStatus)

  /** What is sent to the portal. */
  datatype File = File(path: string, contents: string)

  /** The cache key: namespace, slash, name. */
  function KeyOf(namespace: string, name: string): string {
    Join(namespace, name)
  }

  function Key(obj: KongFile): string {
    KeyOf(obj.meta.namespace, obj.meta.name)
  }

  predicate KnownKind(spec: KongFileSpec) {
    spec.kind in {CONTENT, ASSET, SPECIFICATION}
  }

  function FrontMatter(title: string, layout: string, content: string): string {
    "---\n" +
    "title: " + title + "\n" +
    "layout: " + layout + "\n" +
    "---\n" +
    content
  }

  function Build(spec: KongFileSpec): File {
    if spec.kind == CONTENT then
      File("content/" + Join(spec.path, spec.name), FrontMatter(spec.title, spec.layout, spec.content))
    else if spec.kind == ASSET then
      File("base/assets/" + Join(spec.path, spec.name), spec.content)
    else if spec.kind == SPECIFICATION then
      File("specs/" + Join(spec.path, spec.name), spec.content)
    else
      File("", "")
  }

  /** The path requests for the file are sent to, if the guard lets any through. */
  function PathOf(spec: KongFileSpec): Option<string> {
    if IsBlank(Build(spec).path) then None else Some(Build(spec).path)
  }

  /** The file of the spec is in the portal, as rendered. */
  predicate InPortal(kong: map<string, string>, spec: KongFileSpec) {
    KnownKind(spec) && Build(spec).path in kong && kong[Build(spec).path] == Build(spec).contents
  }

  // ---------------------------------------------------------------- paths

  /** The guard in front of every portal request fires on exactly the unknown kinds. */
  lemma BlankPathIffUnknownKind(spec: KongFileSpec)
    ensures IsBlank(Build(spec).path) <==> !KnownKind(spec)
  {
    var path := Build(spec).path;
    if KnownKind(spec) {
      assert !IsSpace(path[0]);
    }
  }

  function Prefix(kind: string): string {
    if kind == CONTENT then "content/" else if kind == ASSET then "base/assets/" else "specs/"
  }

  lemma PathsSplit(a: KongFileSpec, b: KongFileSpec)
    requires KnownKind(a) && KnownKind(b)
    ensures Build(a).path == Build(b).path <==>
            a.kind == b.kind && Join(a.path, a.name) == Join(b.path, b.name)
  {
    var p, q := Build(a).path, Build(b).path;
    assert p == Prefix(a.kind) + Join(a.path, a.name) && q == Prefix(b.kind) + Join(b.path, b.name);
    assert p[0] == Prefix(a.kind)[0] && q[0] == Prefix(b.kind)[0];
    assert p[|Prefix(a.kind)|..] == Join(a.path, a.name);
    assert q[|Prefix(b.kind)|..] == Join(b.path, b.name);
  }

  /** Exactly which specs of known kinds share a portal path. */
  lemma PathCollision(a: KongFileSpec, b: KongFileSpec)
    requires KnownKind(a) && KnownKind(b)
    requires |a.name| <= |b.name|
    ensures Build(a).path == Build(b).path <==>
            a.kind == b.kind &&
            ((a.path == b.path && a.name == b.name) ||
             exists m :: b.name == Join(m, a.name) && a.path == Join(b.path, m))
  {
    PathsSplit(a, b);
    JoinCollision(a.path, a.name, b.path, b.name);
  }

  /** With slash-free names the portal path identifies kind, path and name. */
  lemma PathInjective(a: KongFileSpec, b: KongFileSpec)
    requires KnownKind(a) && KnownKind(b)
    requires SlashFree(a.name) && SlashFree(b.name)
    ensures Build(a).path == Build(b).path <==> a.kind == b.kind && a.path == b.path && a.name == b.name
  {
    PathsSplit(a, b);
    if Join(a.path, a.name) == Join(b.path, b.name) {
      JoinInjective(a.path, a.name, b.path, b.name);
    }
  }

  // ---------------------------------------------------------------- front matter

  /** Reads the title, the layout and the content back out of a rendered page. */
  function ParseFrontMatter(text: string): (fields: Option<(string, string, string)>)
    ensures fields.Some? ==> NewlineFree(fields.value.0) && NewlineFree(fields.value.1)
  {
    match StripPrefix("---\ntitle: ", text)
    case None => None
    case Some(afterTitle) =>
      match Cut(afterTitle, '\n')
      case None => None
      case Some((title, afterLine)) =>
        match StripPrefix("layout: ", afterLine)
        case None => None
        case Some(afterLayout) =>
          match Cut(afterLayout, '\n')
          case None => None
          case Some((layout, tail)) =>
            match StripPrefix("---\n", tail)
            case None => None
            case Some(content) => Some((title, layout, content))
  }

  /** Rendering loses nothing exactly when the title and the layout are single lines. */
  lemma FrontMatterRoundTrip(title: string, layout: string, content: string)
    ensures ParseFrontMatter(FrontMatter(title, layout, content)) == Some((title, layout, content))
            <==> NewlineFree(title) && NewlineFree(layout)
  {
    var text := FrontMatter(title, layout, content);
    if NewlineFree(title) && NewlineFree(layout) {
      var tail := "---\n" + content;
      var afterLayout := layout + "\n" + tail;
      var afterLine := "layout: " + afterLayout;
      var afterTitle := title + "\n" + afterLine;
      assert text == "---\ntitle: " + afterTitle;
      assert StripPrefix("---\ntitle: ", text) == Some(afterTitle);
      CutFinds(title, '\n', afterLine);
      assert StripPrefix("layout: ", afterLine) == Some(afterLayout);
      CutFinds(layout, '\n', tail);
      assert StripPrefix("---\n", tail) == Some(content);
    }
  }

  /** Without the single-line condition two different pages can be rendered alike. */
  lemma FrontMatterCanCollide()
    ensures FrontMatter("a\nlayout: b", "c", "") == FrontMatter("a", "b\nlayout: c", "")
  {
    assert "title: " + "a\nlayout: b" + "\n" + "layout: " + "c" ==
           "title: " + "a" + "\n" + "layout: " + "b\nlayout: c";
  }

  /** For pages with slash-free names and single-line fields, rendering identifies the spec. */
  lemma BuildInjectiveOnPages(a: KongFileSpec, b: KongFileSpec)
    requires a.kind == CONTENT && b.kind == CONTENT
    requires SlashFree(a.name) && SlashFree(b.name)
    requires NewlineFree(a.title) && NewlineFree(a.layout) && NewlineFree(b.title) && NewlineFree(b.layout)
    ensures Build(a) == Build(b) <==> a == b
  {
    PathInjective(a, b);
    FrontMatterRoundTrip(a.title, a.layout, a.content);
    FrontMatterRoundTrip(b.title, b.layout, b.content);
  }

  // ---------------------------------------------------------------- reading files back

  /** The spec behind a file in one of the three directories: a page is read with its front matter, anything
      else as it is. */
  function ReadFile(file: File): Option<KongFileSpec> {
    match ReadPath(file.path)
    case None => None
    case Some((kind, path, name)) =>
      if kind != "CONTENT" then Some(KongFileSpec("", path, "", name, file.contents, kind))
      else
        match ParseFrontMatter(file.contents)
        case None => None
        case Some((title, layout, content)) => Some(KongFileSpec(layout, path, title, name, content, kind))
  }

  /** The directory says the kind, the last slash ends the path. */
  function ReadPath(path: string): Option<(string, string, string)> {
    if "content/" <= path then Named("CONTENT", CutLast(path[8..], '/'))
    else if "base/assets/" <= path then Named("ASSET", CutLast(path[12..], '/'))
    else if "specs/" <= path then Named("SPECIFICATION", CutLast(path[6..], '/'))
    else None
  }

  function Named(kind: string, cut: Option<(string, string)>): Option<(string, string, string)> {
    match cut
    case None => None
    case Some((path, name)) => Some((kind, path, name))
  }

  lemma CutLastJoin(path: string, name: string)
    ensures CutLast(path + "/" + name, '/') == Some((path, name)) <==> '/' !in name
  {
    var whole := path + "/" + name;
    assert whole[|path|] == '/';
    var cut := CutLast(whole, '/').value;
    if '/' !in name {
      assert Join(cut.0, cut.1) == whole == Join(path, name);
      JoinInjective(cut.0, cut.1, path, name);
    }
  }

  /** Kind, path and name of every spec of a known kind can be read off its portal path exactly when the name
      is free of slashes. */
  lemma PathReadsBack(spec: KongFileSpec)
    requires spec.kind in {"CONTENT", "ASSET", "SPECIFICATION"}
    ensures ReadPath(Build(spec).path) == Some((spec.kind, spec.path, spec.name)) <==> '/' !in spec.name
  {
    var path, tail := Build(spec).path, spec.path + "/" + spec.name;
    CutLastJoin(spec.path, spec.name);
    if spec.kind == "CONTENT" {
      assert path == "content/" + tail && path[8..] == tail;
    } else if spec.kind == "ASSET" {
      assert path == "base/assets/" + tail && path[12..] == tail && path[0] == 'b';
    } else {
      assert path == "specs/" + tail && path[6..] == tail && path[0] == 's';
    }
  }

  /** The fields a file is to show: title and layout are those of pages only. */
  function Shown(spec: KongFileSpec): KongFileSpec {
    if spec.kind == "CONTENT" then spec else spec.(title := "", layout := "")
  }

  /** A rendered file can be read back, with all it is to show, exactly when the name is free of slashes and,
      for a page, title and layout are single lines. */
  lemma FileReadsBack(spec: KongFileSpec)
    requires spec.kind in {"CONTENT", "ASSET", "SPECIFICATION"}
    ensures ReadFile(Build(spec)) == Some(Shown(spec)) <==>
            '/' !in spec.name && (spec.kind == "CONTENT" ==> '\n' !in spec.title && '\n' !in spec.layout)
  {
    PathReadsBack(spec);
    FrontMatterRoundTrip(spec.title, spec.layout, spec.content);
  }

  /** Whatever is in its fields, a page is its two header lines between the marks, then its content; every other
      file is its content; and a spec of any other kind has neither path nor contents. */
  lemma ContentsInFull(spec: KongFileSpec)
    ensures spec.kind == "CONTENT" ==>
              Build(spec).contents ==
              "---\ntitle: " + spec.title + "\nlayout: " + spec.layout + "\n---\n" + spec.content
    ensures spec.kind in {"ASSET", "SPECIFICATION"} ==> Build(spec).contents == spec.content
    ensures spec.kind !in {"CONTENT", "ASSET", "SPECIFICATION"} <==> Build(spec) == File("", "")
  {
    if spec.kind in {"CONTENT", "ASSET", "SPECIFICATION"} {
      assert Build(spec).path != "";
    }
  }

  /** So with slash-free names and single-line page headers, files are alike exactly when they show the same. */
  lemma BuildInjective(a: KongFileSpec, b: KongFileSpec)
    requires a.kind in {"CONTENT", "ASSET", "SPECIFICATION"} && b.kind in {"CONTENT", "ASSET", "SPECIFICATION"}
    requires SlashFree(a.name) && SlashFree(b.name)
    requires a.kind == "CONTENT" ==> NewlineFree(a.title) && NewlineFree(a.layout)
    requires b.kind == "CONTENT" ==> NewlineFree(b.title) && NewlineFree(b.layout)
    ensures Build(a) == Build(b) <==> Shown(a) == Shown(b)
  {
    FileReadsBack(a);
    FileReadsBack(b);
  }

  // ---------------------------------------------------------------- keys

  /** A key splits at its first slash into namespace and name exactly when the namespace has none. */
  lemma KeyReadsBack(namespace: string, name: string)
    ensures Cut(KeyOf(namespace, name), '/') == Some((namespace, name)) <==> '/' !in namespace
  {
    if '/' !in namespace {
      CutFinds(namespace, '/', name);
      assert KeyOf(namespace, name) == namespace + ['/'] + name;
    }
  }
}

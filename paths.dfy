// Path handling behind the guard against writing the template
// (validar_no_es_plantilla) and the export file name: os.path.join,
// os.path.abspath (as a normalised list of segments) and pathlib's stem.
// The file system itself is not modelled; a path is resolved against a
// working directory given as plain segments.

module Paths {
  import opened PyText
  import opened Schema

  /** path.split('/'), built from the right. */
  function Split(p: string): (parts: seq<string>)
    ensures |parts| >= 1
  {
    if p == [] then [""]
    else
      var init := Split(p[..|p| - 1]);
      var c := p[|p| - 1];
      if c == '/' then init + [""]
      else init[..|init| - 1] + [init[|init| - 1] + [c]]
  }

  /** The text after the last '/': the last part of the split. */
  function Name(p: string): string {
    Split(p)[|Split(p)| - 1]
  }

  /** No part of a split holds a '/'. */
  lemma {:induction false} SplitNoSlash(p: string)
    ensures forall i :: 0 <= i < |Split(p)| ==> '/' !in Split(p)[i]
    decreases |p|
  {
    if p != [] {
      var p', c := p[..|p| - 1], p[|p| - 1];
      assert p == p' + [c];
      SplitNoSlash(p');
      SplitSnoc(p', c);
    }
  }

  /** Split on one more character. */
  lemma SplitSnoc(p: string, c: char)
    ensures Split(p + [c]) == if c == '/' then Split(p) + [""]
      else Split(p)[..|Split(p)| - 1] + [Split(p)[|Split(p)| - 1] + [c]]
  {
    assert (p + [c])[..|p|] == p;
  }

  lemma NameSnoc(p: string, c: char)
    requires c != '/'
    ensures Name(p + [c]) == Name(p) + [c]
  {
    var parts := Split(p);
    SplitSnoc(p, c);
    var parts' := Split(p + [c]);
    assert parts' == parts[..|parts| - 1] + [parts[|parts| - 1] + [c]];
    assert parts'[|parts'| - 1] == parts[|parts| - 1] + [c];
  }

  lemma {:induction false} SplitAround(a: string, b: string)
    ensures Split(a + "/" + b) == Split(a) + Split(b)
    decreases |b|
  {
    if b == [] {
      assert a + "/" + b == a + ['/'];
      SplitSnoc(a, '/');
    } else {
      var b', c := b[..|b| - 1], b[|b| - 1];
      var q := a + "/" + b';
      assert a + "/" + b == q + [c];
      assert b == b' + [c];
      SplitAround(a, b');
      SplitSnoc(q, c);
      SplitSnoc(b', c);
      ConcatLast(Split(a), Split(b'), c);
    }
  }

  /** Extending the last part of x + y extends the last part of y. */
  lemma ConcatLast(x: seq<string>, y: seq<string>, c: char)
    requires |y| >= 1
    ensures (x + y)[..|x + y| - 1] + [(x + y)[|x + y| - 1] + [c]]
         == x + (y[..|y| - 1] + [y[|y| - 1] + [c]])
    ensures (x + y) + [""] == x + (y + [""])
  {
    assert (x + y)[..|x + y| - 1] == x + y[..|y| - 1];
  }

  /** A path segment that normalisation keeps as it is. */
  predicate Plain(seg: string) {
    seg != "" && seg != "." && seg != ".." && '/' !in seg
  }

  predicate AllPlain(segs: seq<string>) {
    forall i :: 0 <= i < |segs| ==> Plain(segs[i])
  }

  /** posixpath.normpath on an absolute path: drops empty and "." segments,
      and lets ".." remove the segment before it (at the root it does
      nothing). */
  function Normalize(segs: seq<string>): (r: seq<string>)
    ensures |r| <= |segs|
  {
    if segs == [] then []
    else
      var st := Normalize(segs[..|segs| - 1]);
      var s := segs[|segs| - 1];
      if s == "" || s == "." then st
      else if s == ".." then (if st == [] then [] else st[..|st| - 1])
      else st + [s]
  }

  /** Normalising segments without '/' leaves only plain ones. */
  lemma {:induction false} NormalizeIsPlain(segs: seq<string>)
    requires forall i :: 0 <= i < |segs| ==> '/' !in segs[i]
    ensures AllPlain(Normalize(segs))
    decreases |segs|
  {
    if segs != [] {
      var init := segs[..|segs| - 1];
      assert forall i :: 0 <= i < |init| ==> init[i] == segs[i];
      NormalizeIsPlain(init);
    }
  }

  /** Plain segments pass through normalisation unchanged. */
  lemma {:induction false} NormalizeAppendPlain(a: seq<string>, b: seq<string>)
    requires AllPlain(b)
    ensures Normalize(a + b) == Normalize(a) + b
    decreases |b|
  {
    if b != [] {
      var b' := b[..|b| - 1];
      assert (a + b)[..|a + b| - 1] == a + b';
      NormalizeAppendPlain(a, b');
    } else {
      assert a + b == a;
    }
  }

  /** A plain last segment stays last. */
  lemma NormalizeLast(segs: seq<string>)
    requires |segs| > 0 && Plain(segs[|segs| - 1])
    ensures |Normalize(segs)| > 0 && Normalize(segs)[|Normalize(segs)| - 1] == segs[|segs| - 1]
  {
  }

  /** os.path.join(a, b) for two components. */
  function JoinPath(a: string, b: string): string {
    if StartsWith(b, "/") then b
    else if a == "" || EndsWith(a, "/") then a + b
    else a + "/" + b
  }

  /** os.path.abspath, as the segments of the normalised absolute path;
      cwd is the working directory. */
  function Abspath(cwd: seq<string>, p: string): seq<string> {
    Normalize(if StartsWith(p, "/") then Split(p) else cwd + Split(p))
  }

  /** posixpath.normpath keeps a root of exactly two slashes: "//a" stays
      "//a", while one slash or three and more give "/". A relative path
      is put under the working directory, whose root (os.getcwd()) is a
      single slash. */
  predicate TwoSlashRoot(p: string) {
    StartsWith(p, "//") && !StartsWith(p, "///")
  }

  /** os.path.abspath(p) == os.path.abspath(q) as strings: the same
      segments under the same root. */
  predicate SameAbspath(cwd: seq<string>, p: string, q: string) {
    Abspath(cwd, p) == Abspath(cwd, q) && TwoSlashRoot(p) == TwoSlashRoot(q)
  }

  /** os.path.join(ARCHIVOS_DIR, nombre), the path the ledger opens. */
  function ArchivePath(nombre: string): string {
    JoinPath(ARCHIVOS_DIR, nombre)
  }

  /** A plain name lands directly in the archive directory. */
  lemma PlainArchivePath(nombre: string)
    requires Plain(nombre)
    ensures ArchivePath(nombre) == ARCHIVOS_DIR + "/" + nombre
  {
    assert nombre[0] != '/';
    assert ARCHIVOS_DIR[|ARCHIVOS_DIR| - 1] == 's';
  }

  /** Where os.path.exists, load_workbook and save look for a name. */
  function Resolve(cwd: seq<string>, nombre: string): seq<string> {
    Abspath(cwd, ArchivePath(nombre))
  }

  /** The guard's test: the two abspath strings are equal. */
  predicate IsTemplate(cwd: seq<string>, nombre: string) {
    SameAbspath(cwd, ArchivePath(nombre), PLANTILLA_PATH)
  }

  /** The name resolves to the template's path. A root of two slashes names the
      same file as a root of one. */
  predicate ResolvesToTemplate(cwd: seq<string>, nombre: string) {
    Resolve(cwd, nombre) == Abspath(cwd, PLANTILLA_PATH)
  }

  const TEMPLATE_MSG: string :=
    "No se puede modificar la plantilla base directamente. " +
    "Use crear_copia_plantilla() para crear una copia de trabajo."

  /** validar_no_es_plantilla: refuses a name whose abspath string is the
      template's. Every name it refuses resolves to the template's path. */
  function ValidarNoEsPlantilla(cwd: seq<string>, nombre: string): (o: Outcome)
    ensures o.Fail? <==> IsTemplate(cwd, nombre)
    ensures o.Fail? ==> o.error == ValueError(TEMPLATE_MSG) && ResolvesToTemplate(cwd, nombre)
  {
    if IsTemplate(cwd, nombre) then Fail(ValueError(TEMPLATE_MSG)) else Pass
  }

  /** The guard as its purpose states it: refuse every name that resolves to the
      template's path, whatever its root. */
  function GuardTemplateFile(cwd: seq<string>, nombre: string): (o: Outcome)
    ensures o.Fail? <==> ResolvesToTemplate(cwd, nombre)
    ensures o.Fail? ==> o.error == ValueError(TEMPLATE_MSG)
    ensures ValidarNoEsPlantilla(cwd, nombre).Fail? ==> o.Fail?
  {
    if ResolvesToTemplate(cwd, nombre) then Fail(ValueError(TEMPLATE_MSG)) else Pass
  }

  lemma {:induction false} SplitPlain(s: string)
    requires '/' !in s
    ensures Split(s) == [s]
    decreases |s|
  {
    if s != [] {
      assert '/' !in s[..|s| - 1];
      SplitPlain(s[..|s| - 1]);
      assert s[..|s| - 1] + [s[|s| - 1]] == s;
    }
  }

  /** Two plain segments joined by '/' split back into them. */
  lemma SplitTwo(a: string, b: string)
    requires '/' !in a && '/' !in b
    ensures Split(a + "/" + b) == [a, b]
  {
    SplitAround(a, b);
    SplitPlain(a);
    SplitPlain(b);
  }

  lemma NoSlashIsRelative(s: string, rest: string)
    requires s != [] && '/' !in s
    ensures !StartsWith(s + rest, "/")
  {
    assert (s + rest)[..1] == [s[0]] && s[0] != '/';
  }

  /** A relative name under a plain directory resolves to that directory's
      segment followed by the name's. */
  lemma {:induction false} ResolveRelative(cwd: seq<string>, dir: string, nombre: string)
    requires Plain(dir) && !StartsWith(nombre, "/")
    ensures Abspath(cwd, JoinPath(dir, nombre)) == Normalize(cwd + [dir] + Split(nombre))
  {
    assert dir[|dir| - 1] != '/';
    assert !EndsWith(dir, "/") by {
      assert dir[|dir| - 1..] == [dir[|dir| - 1]];
    }
    assert JoinPath(dir, nombre) == dir + "/" + nombre;
    NoSlashIsRelative(dir, "/" + nombre);
    assert dir + "/" + nombre == dir + ("/" + nombre);
    SplitAround(dir, nombre);
    SplitPlain(dir);
    assert cwd + ([dir] + Split(nombre)) == cwd + [dir] + Split(nombre);
  }

  /** Plain segments under cwd normalise to themselves. */
  lemma NormalizePlainPath(cwd: seq<string>, tail: seq<string>)
    requires AllPlain(cwd) && AllPlain(tail)
    ensures Normalize(cwd + tail) == cwd + tail
  {
    assert AllPlain(cwd + tail) by {
      forall i | 0 <= i < |cwd + tail| ensures Plain((cwd + tail)[i]) {
        if i >= |cwd| {
          assert (cwd + tail)[i] == tail[i - |cwd|];
        }
      }
    }
    NormalizeAppendPlain([], cwd + tail);
    assert [] + (cwd + tail) == cwd + tail;
  }

  /** dir/base, for plain segments, resolves to cwd + [dir, base]. */
  lemma {:induction false} PlainPathSegments(cwd: seq<string>, dir: string, base: string)
    requires AllPlain(cwd) && Plain(dir) && Plain(base)
    ensures Abspath(cwd, dir + "/" + base) == cwd + [dir, base]
  {
    NoSlashIsRelative(dir, "/" + base);
    assert dir + "/" + base == dir + ("/" + base);
    SplitTwo(dir, base);
    NormalizePlainPath(cwd, [dir, base]);
  }

  lemma ArchivePathSegments(cwd: seq<string>, nombre: string)
    requires !StartsWith(nombre, "/")
    ensures Resolve(cwd, nombre) == Normalize(cwd + [ARCHIVOS_DIR] + Split(nombre))
  {
    ArchiveDirFacts();
    ResolveRelative(cwd, ARCHIVOS_DIR, nombre);
  }

  lemma TemplateSegments(cwd: seq<string>)
    requires AllPlain(cwd)
    ensures Abspath(cwd, PLANTILLA_PATH) == cwd + [PLANTILLAS_DIR, PLANTILLA_BASE]
  {
    TemplateDirFacts();
    PlainPathSegments(cwd, PLANTILLAS_DIR, PLANTILLA_BASE);
  }

  lemma {:induction false} PlainNameResolves(cwd: seq<string>, dir: string, nombre: string)
    requires AllPlain(cwd) && Plain(dir) && Plain(nombre)
    ensures Abspath(cwd, JoinPath(dir, nombre)) == cwd + [dir, nombre]
  {
    var tail := [dir, nombre];
    assert Abspath(cwd, JoinPath(dir, nombre)) == Normalize(cwd + tail) by {
      NoSlashIsRelative(nombre, []);
      assert nombre + [] == nombre;
      ResolveRelative(cwd, dir, nombre);
      SplitPlain(nombre);
      assert cwd + [dir] + [nombre] == cwd + tail;
    }
    NormalizePlainPath(cwd, tail);
  }

  /** A bare file name in the working directory is never the template. */
  lemma PlainNameIsNotTemplate(cwd: seq<string>, nombre: string)
    requires AllPlain(cwd) && Plain(nombre)
    ensures !IsTemplate(cwd, nombre)
  {
    ArchiveDirFacts();
    TemplateDirFacts();
    PlainNameResolves(cwd, ARCHIVOS_DIR, nombre);
    TemplateSegments(cwd);
    assert Resolve(cwd, nombre)[|cwd|] == ARCHIVOS_DIR;
    assert Abspath(cwd, PLANTILLA_PATH)[|cwd|] == PLANTILLAS_DIR;
  }

  lemma ArchiveDirFacts()
    ensures Plain(ARCHIVOS_DIR)
  {
  }

  lemma TemplateDirFacts()
    ensures Plain(PLANTILLAS_DIR) && Plain(PLANTILLA_BASE)
    ensures PLANTILLAS_DIR != ARCHIVOS_DIR
  {
    assert PLANTILLAS_DIR[0] != ARCHIVOS_DIR[0];
  }

  const PARENT: string := ".."

  lemma ClimbingSplit(dir: string, base: string)
    requires '/' !in dir && '/' !in base
    ensures Split(PARENT + "/" + (dir + "/" + base)) == [PARENT, dir, base]
  {
    SplitAround(PARENT, dir + "/" + base);
    SplitPlain(PARENT);
    SplitTwo(dir, base);
  }

  /** ".." after a plain segment undoes it. */
  lemma {:induction false} ClimbingNormalize(cwd: seq<string>, out: string, dir: string, base: string)
    requires AllPlain(cwd) && Plain(out) && Plain(dir) && Plain(base)
    ensures Normalize(cwd + [out] + [PARENT, dir, base]) == cwd + [dir, base]
  {
    var up := cwd + [out, PARENT];
    assert cwd + [out] + [PARENT, dir, base] == up + [dir, base];
    NormalizePlainPath(cwd, [out]);
    assert up[..|up| - 1] == cwd + [out];
    assert Normalize(up) == cwd;
    NormalizeAppendPlain(up, [dir, base]);
  }

  /** A name that climbs out of a plain directory and back down into
      dir/base resolves to cwd + [dir, base]. */
  lemma {:induction false} ClimbingResolves(cwd: seq<string>, out: string, dir: string, base: string)
    requires AllPlain(cwd) && Plain(out) && Plain(dir) && Plain(base)
    ensures Abspath(cwd, JoinPath(out, PARENT + "/" + (dir + "/" + base))) == cwd + [dir, base]
  {
    var nombre := PARENT + "/" + (dir + "/" + base);
    NoSlashIsRelative(PARENT, "/" + (dir + "/" + base));
    assert nombre == PARENT + ("/" + (dir + "/" + base));
    ResolveRelative(cwd, out, nombre);
    ClimbingSplit(dir, base);
    ClimbingNormalize(cwd, out, dir, base);
  }

  /** The guard does catch a name that climbs out of the archive directory. */
  lemma ClimbingNameIsTemplate(cwd: seq<string>)
    requires AllPlain(cwd)
    ensures IsTemplate(cwd, PARENT + "/" + PLANTILLA_PATH)
  {
    ArchiveDirFacts();
    TemplateDirFacts();
    ClimbingResolves(cwd, ARCHIVOS_DIR, PLANTILLAS_DIR, PLANTILLA_BASE);
    TemplateSegments(cwd);
    var nombre := PARENT + "/" + PLANTILLA_PATH;
    NoSlashIsRelative(ARCHIVOS_DIR, "/" + nombre);
    assert ArchivePath(nombre) == ARCHIVOS_DIR + ("/" + nombre) by {
      assert !EndsWith(ARCHIVOS_DIR, "/") by { assert ARCHIVOS_DIR[|ARCHIVOS_DIR| - 1..] == [ARCHIVOS_DIR[|ARCHIVOS_DIR| - 1]]; }
      NoSlashIsRelative(PARENT, "/" + PLANTILLA_PATH);
    }
    RelativeRoot(ArchivePath(nombre));
    TemplateRoot();
  }

  /** A path that does not start with '/' has no two-slash root. */
  lemma RelativeRoot(p: string)
    requires !StartsWith(p, "/")
    ensures !TwoSlashRoot(p)
  {
  }

  /** The template's own path is relative. */
  lemma TemplateRoot()
    ensures !StartsWith(PLANTILLA_PATH, "/") && !TwoSlashRoot(PLANTILLA_PATH)
  {
    assert PLANTILLA_PATH[0] == 'P';
    RelativeRoot(PLANTILLA_PATH);
  }

  /** The template's absolute path written with a root of two slashes, for
      a working directory of one segment w. */
  function TwoSlashTemplateName(w: string): string {
    "/" + "/" + (w + "/" + PLANTILLA_PATH)
  }

  /** Splitting "//w/Plantillas/plantilla_base" gives two empty segments
      and then the plain ones. */
  lemma TwoSlashSplit(w: string)
    requires Plain(w)
    ensures Split(TwoSlashTemplateName(w)) == ["", "", w, PLANTILLAS_DIR, PLANTILLA_BASE]
  {
    var x := w + "/" + PLANTILLA_PATH;
    var y := "" + "/" + x;
    assert TwoSlashTemplateName(w) == "" + "/" + y;
    assert Split("") == [""];
    assert Split(y) == [""] + [w, PLANTILLAS_DIR, PLANTILLA_BASE] by {
      SplitAround("", x);
      UnderDirSplit(w);
    }
    assert Split("" + "/" + y) == [""] + Split(y) by {
      SplitAround("", y);
    }
  }

  /** "w/Plantillas/plantilla_base" splits into its three segments. */
  lemma UnderDirSplit(w: string)
    requires Plain(w)
    ensures Split(w + "/" + PLANTILLA_PATH) == [w, PLANTILLAS_DIR, PLANTILLA_BASE]
  {
    TemplateDirFacts();
    SplitAround(w, PLANTILLA_PATH);
    SplitPlain(w);
    SplitTwo(PLANTILLAS_DIR, PLANTILLA_BASE);
  }

  /** The guard lets the template's own path through when it is written
      with a root of two slashes, although that name resolves to the
      template's path. */
  lemma TwoSlashNameBypassesGuard(w: string)
    requires Plain(w)
    ensures ResolvesToTemplate([w], TwoSlashTemplateName(w))
    ensures ValidarNoEsPlantilla([w], TwoSlashTemplateName(w)) == Pass
  {
    var nombre := TwoSlashTemplateName(w);
    TemplateDirFacts();
    assert StartsWith(nombre, "/") by { assert nombre[..1] == "/"; }
    assert ArchivePath(nombre) == nombre;
    TwoSlashSplit(w);
    var plain := [w, PLANTILLAS_DIR, PLANTILLA_BASE];
    assert ["", "", w, PLANTILLAS_DIR, PLANTILLA_BASE] == ["", ""] + plain;
    NormalizeAppendPlain(["", ""], plain);
    assert Normalize(["", ""]) == [] by {
      assert ["", ""][..1] == [""];
      assert Normalize([""]) == [] by { assert [""][..0] == []; }
    }
    TemplateSegments([w]);
    assert TwoSlashRoot(nombre) by {
      assert nombre[..2] == "//";
      assert nombre[2] == w[0] && w[0] != '/';
      assert nombre[..3] != "///" by { assert nombre[..3][2] == nombre[2]; }
    }
    TemplateRoot();
  }

  /** The guard as its purpose states it refuses that name. */
  lemma TwoSlashNameRefused(w: string)
    requires Plain(w)
    ensures GuardTemplateFile([w], TwoSlashTemplateName(w)) == Fail(ValueError(TEMPLATE_MSG))
  {
    TwoSlashNameBypassesGuard(w);
  }

  /** Position of the last occurrence of c in s, or -1. */
  function RFind(s: string, c: char): (i: int)
    ensures -1 <= i < |s|
    ensures i >= 0 ==> s[i] == c
    ensures forall j :: i < j < |s| ==> s[j] != c
  {
    if s == [] then -1
    else if s[|s| - 1] == c then |s| - 1
    else RFind(s[..|s| - 1], c)
  }

  /** os.path.splitext(p)[1]: from the last '.' to the end, when that dot
      lies in the last segment and something other than a dot comes before
      it there; otherwise "". */
  function Extension(p: string): (e: string)
    ensures EndsWith(p, e)
    ensures e == [] || (e[0] == '.' && '/' !in e && '.' !in e[1..])
  {
    var sep, dot := RFind(p, '/'), RFind(p, '.');
    if sep < dot && exists j | sep < j < dot :: p[j] != '.' then
      assert p[|p| - |p[dot..]|..] == p[dot..];
      assert forall j :: 0 <= j < |p[dot..]| ==> p[dot..][j] == p[dot + j];
      p[dot..]
    else ""
  }

  /** A path ending in a dotted suffix, after a character that is neither
      a dot nor a slash, has that suffix as its extension. */
  lemma ExtensionOfSuffix(p: string, e: string)
    requires |p| >= 1 && p[|p| - 1] != '.' && p[|p| - 1] != '/'
    requires |e| >= 1 && e[0] == '.' && '/' !in e && '.' !in e[1..]
    ensures Extension(p + e) == e
  {
    var q := p + e;
    var sep, dot := RFind(q, '/'), RFind(q, '.');
    assert q[|p|] == '.';
    assert forall j :: |p| < j < |q| ==> q[j] == e[j - |p|] && q[j] == e[1..][j - |p| - 1];
    assert dot == |p|;
    assert q[|p| - 1] == p[|p| - 1];
    assert sep < |p| - 1;
    assert q[dot..] == e;
  }

  /** A path whose last segment holds no dot has no extension. */
  lemma ExtensionOfSegment(dir: string, base: string)
    requires '.' !in base && '/' !in base
    ensures Extension(dir + "/" + base) == ""
  {
    var q := dir + "/" + base;
    assert q[|dir|] == '/';
    assert forall j :: |dir| < j < |q| ==> q[j] == base[j - |dir| - 1];
    assert RFind(q, '/') == |dir|;
  }

  /** A last segment made only of dots and a suffix, such as ".xlsx", has
      no extension: its leading dots do not count. */
  lemma DotNameHasNoExtension(dir: string, e: string)
    requires |e| >= 1 && e[0] == '.' && '/' !in e && '.' !in e[1..]
    ensures Extension(dir + "/" + e) == ""
  {
    var q := dir + "/" + e;
    assert q[|dir|] == '/' && q[|dir| + 1] == '.';
    assert forall j :: |dir| + 1 < j < |q| ==> q[j] == e[1..][j - |dir| - 2];
    assert RFind(q, '.') == |dir| + 1;
    assert RFind(q, '/') == |dir|;
  }

  /** The four extensions openpyxl's load_workbook opens. */
  const SUPPORTED_FORMATS: seq<string> := [".xlsx", ".xlsm", ".xltx", ".xltm"]

  /** load_workbook's test: the extension, lower-cased, is one of the four. */
  predicate SupportedFormat(ruta: string) {
    Lower(Extension(ruta)) in SUPPORTED_FORMATS
  }

  /** pathlib.Path(p).stem: the name without its last suffix; a name whose
      only dot is its first character has no suffix. */
  function Stem(p: string): string {
    var n := Name(p);
    var i := RFind(n, '.');
    if 0 < i < |n| - 1 then n[..i] else n
  }

  /** For a name ending in ".xlsx", the stem is what precedes that suffix
      (or the whole name when it is just ".xlsx"). */
  lemma StemOfXlsx(p: string)
    requires EndsWith(p, ".xlsx")
    ensures EndsWith(Name(p), ".xlsx")
    ensures Stem(p) == if |Name(p)| > 5 then Name(p)[..|Name(p)| - 5] else Name(p)
  {
    var n := Name(p);
    NameOfSuffix(p, ".xlsx");
    var i := RFind(n, '.');
    assert n[|n| - 5] == '.';
    assert forall j :: |n| - 5 < j < |n| ==> n[j] != '.' by {
      forall j | |n| - 5 < j < |n| ensures n[j] != '.' {
        assert n[j] == n[|n| - 5..][j - (|n| - 5)];
      }
    }
    assert i == |n| - 5;
  }

  /** A suffix without '/' survives in the name. */
  lemma {:induction false} NameOfSuffix(p: string, suffix: string)
    requires EndsWith(p, suffix) && '/' !in suffix
    ensures EndsWith(Name(p), suffix)
    decreases |p|
  {
    if suffix == [] {
      assert Name(p)[|Name(p)|..] == [];
    } else {
      var p' := p[..|p| - 1];
      var s' := suffix[..|suffix| - 1];
      var c := p[|p| - 1];
      assert c == suffix[|suffix| - 1];
      assert p'[|p'| - |s'|..] == s';
      assert '/' !in s';
      NameOfSuffix(p', s');
      assert p' + [c] == p;
      NameSnoc(p', c);
      assert Name(p)[|Name(p)| - |suffix|..] == Name(p')[|Name(p')| - |s'|..] + [c];
    }
  }
}

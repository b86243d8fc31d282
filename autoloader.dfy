/**
 * The class autoloader of the Facebook Leads for FluentCRM plugin
 * (`facebook-leads-fluentcrm/includes/Autoloader.php`): a class of the
 * plugin's namespace is loaded from the file of the same path under the
 * `includes` directory.
 */
module Autoloader {
  import opened Wrappers

  /** The namespace prefix, trailing separator included. */
  const Prefix: string := "FacebookLeadsFluentCRM\\"

  predicate StartsWith(s: string, prefix: string)
  {
    |prefix| <= |s| && s[..|prefix|] == prefix
  }

  /** `str_replace('\\', '/', s)`. */
  function Slashes(s: string): (r: string)
    ensures |r| == |s| && '\\' !in r
  {
    seq(|s|, i requires 0 <= i < |s| => if s[i] == '\\' then '/' else s[i])
  }

  /** The file the autoloader looks for when asked for `cls`, with `dir` the
      directory of the autoloader; None when the class is not the plugin's. */
  function FileOf(dir: string, cls: string): Option<string>
  {
    if !StartsWith(cls, Prefix) then None
    else Some(dir + "/" + Slashes(cls[|Prefix|..]) + ".php")
  }

  /** The file the autoloader requires, with `fileExists` standing for
      `file_exists`: None when nothing is loaded. */
  function Loaded(dir: string, cls: string, fileExists: string -> bool): (r: Option<string>)
    ensures r.Some? ==> fileExists(r.value) && FileOf(dir, cls) == r
    ensures r.None? ==> FileOf(dir, cls).None? || !fileExists(FileOf(dir, cls).value)
  {
    match FileOf(dir, cls)
    case None => None
    case Some(file) => if fileExists(file) then Some(file) else None
  }

  // ------------------------------------------------------------ properties

  /** The path of a class of the plugin: the directory, a slash, the class
      name after the prefix with every namespace separator a slash, and
      `.php`; the relative part holds no backslash. A class outside the
      namespace gets no path. */
  lemma FileShape(dir: string, cls: string)
    ensures FileOf(dir, cls).Some? <==> StartsWith(cls, Prefix)
    ensures FileOf(dir, cls).Some? ==>
      var f := FileOf(dir, cls).value;
      var rel := f[|dir| + 1..|f| - 4];
      |f| == |dir| + |cls| - |Prefix| + 5 &&
      f[..|dir| + 1] == dir + "/" && f[|f| - 4..] == ".php" &&
      '\\' !in rel && |rel| == |cls| - |Prefix| &&
      forall i :: 0 <= i < |rel| ==> rel[i] == (if cls[|Prefix| + i] == '\\' then '/' else cls[|Prefix| + i])
  {
    if StartsWith(cls, Prefix) {
      var f := FileOf(dir, cls).value;
      var rel := Slashes(cls[|Prefix|..]);
      assert f == dir + "/" + rel + ".php";
      assert f[|dir| + 1..|f| - 4] == rel;
    }
  }

  /** Two class names without slashes, as PHP class names are, never share
      a file. */
  lemma {:induction false} FileInjective(dir: string, a: string, b: string)
    requires '/' !in a && '/' !in b
    requires FileOf(dir, a).Some? && FileOf(dir, a) == FileOf(dir, b)
    ensures a == b
  {
    FileShape(dir, a);
    FileShape(dir, b);
    var ra := a[|Prefix|..];
    var rb := b[|Prefix|..];
    var f := FileOf(dir, a).value;
    var rel := f[|dir| + 1..|f| - 4];
    forall i | 0 <= i < |ra| ensures ra[i] == rb[i] {
      assert a[|Prefix| + i] == ra[i] && b[|Prefix| + i] == rb[i];
      assert ra[i] != '/' && rb[i] != '/';
      assert rel[i] == (if ra[i] == '\\' then '/' else ra[i]);
      assert rel[i] == (if rb[i] == '\\' then '/' else rb[i]);
    }
    assert ra == rb;
    assert a == a[..|Prefix|] + ra;
    assert b == b[..|Prefix|] + rb;
  }

  lemma SlashesConcat(x: string, y: string)
    ensures Slashes(x + y) == Slashes(x) + Slashes(y)
  {
  }

  lemma SlashesNone(s: string)
    requires '\\' !in s
    ensures Slashes(s) == s
  {
  }

  /** A class of a sub-namespace of the plugin, such as
      `Rest\WebhookController`, resolves to the file of the same name in
      the sub-directory of that name; a class directly in the namespace,
      such as `Plugin`, to the file beside the autoloader. */
  lemma NestedClassFile(dir: string, ns: string, name: string)
    requires '\\' !in ns && '\\' !in name
    ensures FileOf(dir, Prefix + ns + "\\" + name) == Some(dir + "/" + ns + "/" + name + ".php")
    ensures FileOf(dir, Prefix + name) == Some(dir + "/" + name + ".php")
  {
    var rel := ns + "\\" + name;
    var cls := Prefix + ns + "\\" + name;
    assert cls == Prefix + rel && cls[..|Prefix|] == Prefix && cls[|Prefix|..] == rel;
    SlashesConcat(ns + "\\", name);
    SlashesConcat(ns, "\\");
    SlashesNone(ns);
    SlashesNone(name);
    assert Slashes("\\") == "/";
    assert Slashes(rel) == ns + "/" + name;
    assert FileOf(dir, cls) == Some(dir + "/" + Slashes(rel) + ".php");
    assert dir + "/" + (ns + "/" + name) + ".php" == dir + "/" + ns + "/" + name + ".php";
    assert (Prefix + name)[|Prefix|..] == name;
  }

  /** The trailing separator is part of the prefix: a namespace that merely
      begins with the same letters is not the plugin's, nor is the bare
      namespace name. */
  lemma PrefixNeedsSeparator(dir: string)
    ensures FileOf(dir, "FacebookLeadsFluentCRMX\\Foo").None?
    ensures FileOf(dir, "FacebookLeadsFluentCRM").None?
  {
    assert "FacebookLeadsFluentCRMX\\Foo"[|Prefix| - 1] == 'X';
  }
}

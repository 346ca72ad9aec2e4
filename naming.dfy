/**
 * The plugin naming convention: an executable is a plugin when its file
 * name is `cargobuild-<id><EXE_SUFFIX>`; the identifier is what lies
 * between the prefix and the platform's executable suffix.
 */
module Naming {

  /** The fixed file-name prefix of every plugin executable. */
  const Prefix: string := "cargobuild-"

  /** The two platforms `env::consts::EXE_SUFFIX` distinguishes here. */
  datatype Platform = Unix | Windows

  /** `env::consts::EXE_SUFFIX`. */
  function ExeSuffix(p: Platform): (s: string)
    ensures s == "" || s == ".exe"
  {
    match p
    case Unix => ""
    case Windows => ".exe"
  }

  /** `str::starts_with`. */
  predicate StartsWith(s: string, prefix: string) {
    |prefix| <= |s| && s[..|prefix|] == prefix
  }

  /** `str::ends_with`. */
  predicate EndsWith(s: string, suffix: string) {
    |suffix| <= |s| && s[|s| - |suffix|..] == suffix
  }

  /** The test that keeps an entry in the scan: prefix and suffix both present. */
  predicate IsPluginFileName(f: string, p: Platform) {
    StartsWith(f, Prefix) && EndsWith(f, ExeSuffix(p))
  }

  /**
   * The test means what it says: the name is the prefix followed by
   * something, and something followed by the platform suffix.
   */
  lemma PluginFileNameTest(f: string, p: Platform)
    ensures IsPluginFileName(f, p) <==>
              (exists t :: Prefix + t == f) && (exists t :: t + ExeSuffix(p) == f)
  {
    var n, m := |Prefix|, |f| - |ExeSuffix(p)|;
    if n <= |f| {
      assert Prefix + f[n..] == f <== f[..n] == Prefix;
    }
    if 0 <= m {
      assert f[..m] + ExeSuffix(p) == f <== f[m..] == ExeSuffix(p);
    }
    if exists t :: Prefix + t == f {
      var t :| Prefix + t == f;
      assert f[..n] == Prefix;
    }
    if exists t :: t + ExeSuffix(p) == f {
      var t :| t + ExeSuffix(p) == f;
      assert f[|t|..] == ExeSuffix(p);
    }
  }

  /**
   * Prefix and suffix never overlap: a name that passes both tests is at
   * least as long as the two together, so the slice taken by the scan is in
   * range (it would panic otherwise).  For ".exe" this rests on the suffix's
   * leading '.' not occurring in the last four characters of the prefix.
   */
  lemma NoOverlap(f: string, p: Platform)
    requires IsPluginFileName(f, p)
    ensures |Prefix| + |ExeSuffix(p)| <= |f|
  {
    if p == Windows {
      var k := |f| - 4;
      assert f[k] == '.' by {
        assert f[k] == f[|f| - 4..][0];
      }
      assert '.' !in Prefix;
      assert forall i :: 0 <= i < |Prefix| ==> f[i] == Prefix[i];
    }
  }

  /** `filename[prefix.len()..filename.len() - suffix.len()]`: the plugin identifier. */
  function PluginId(f: string, p: Platform): (id: string)
    requires IsPluginFileName(f, p)
    ensures Prefix + id + ExeSuffix(p) == f
  {
    NoOverlap(f, p);
    var id := f[|Prefix|..|f| - |ExeSuffix(p)|];
    assert f == f[..|Prefix|] + id + f[|f| - |ExeSuffix(p)|..];
    id
  }

  /** The file name a plugin with identifier `id` has on platform `p`. */
  function FileNameFor(id: string, p: Platform): (f: string)
    ensures IsPluginFileName(f, p)
    ensures PluginId(f, p) == id
  {
    var f := Prefix + id + ExeSuffix(p);
    assert f[..|Prefix|] == Prefix;
    assert f[|f| - |ExeSuffix(p)|..] == ExeSuffix(p);
    assert f[|Prefix|..|f| - |ExeSuffix(p)|] == id;
    f
  }

  /** The two are inverse: a name is a plugin name exactly when it is the name of some identifier. */
  lemma PluginFileNameIff(f: string, p: Platform)
    ensures IsPluginFileName(f, p) <==> exists id :: FileNameFor(id, p) == f
  {
    if IsPluginFileName(f, p) {
      assert FileNameFor(PluginId(f, p), p) == f;
    }
  }

  /** Distinct identifiers have distinct file names, so one directory provides an identifier at most once. */
  lemma FileNameForInjective(a: string, b: string, p: Platform)
    requires FileNameFor(a, p) == FileNameFor(b, p)
    ensures a == b
  {
    assert PluginId(FileNameFor(a, p), p) == a;
  }
}

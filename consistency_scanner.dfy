/** The diamond-dependency detector: an SBOM generated by syft is grouped by
    package name and ecosystem type, and every group holding more than one distinct
    version becomes a MEDIUM finding with ecosystem-specific remediation advice. */
module ConsistencyScanner {
  import opened Base
  import opened Text

  /** One SBOM artifact: its `name`, `version` and `type`. */
  datatype Package = Package(name: string, version: string, kind: string)

  /** The registry key `(name, type)`. */
  datatype Key = Key(name: string, kind: string)

  function KeyOf(p: Package): Key {
    Key(p.name, p.kind)
  }

  /** The decoded SBOM: `artifacts` is `None` when the document has no such key. */
  datatype Sbom = Sbom(artifacts: Option<seq<Package>>)

  /** What `json.loads` followed by the artifact field accesses make of syft's
      output: not JSON at all, a document whose shape makes the detector raise
      (an artifact that is not a dictionary, or a group in which a missing version
      sits beside a present one, which `sorted` cannot order), or a usable SBOM.
      A package whose group has only missing versions yields no conflict, so the
      decoder leaves it out of the usable SBOM. */
  datatype SbomDecode = Unparsable | Malformed(msg: string) | Decoded(sbom: Sbom)

  /** One conflict dictionary. */
  datatype Conflict = Conflict(
    package: string,
    kind: string,
    versions: seq<string>,
    severity: string,
    description: string,
    remediation: string)

  /** The result of `scan`: `{}` when disabled, an error dictionary, or the findings. */
  datatype ScanResult =
    | Disabled
    | Problem(status: Status, error: string)
    | Findings(findings: seq<Conflict>, status: Status, tool: string)

  // ---------------------------------------------------------------- string order

  /** Python's `<` on `str`: code-point lexicographic order. */
  predicate Below(a: string, b: string)
    decreases |a|
  {
    |b| > 0 && (|a| == 0 || a[0] < b[0] || (a[0] == b[0] && Below(a[1..], b[1..])))
  }

  lemma {:induction false} BelowIrreflexive(a: string)
    ensures !Below(a, a)
  {
    if |a| > 0 {
      BelowIrreflexive(a[1..]);
    }
  }

  lemma {:induction false} BelowAsymmetric(a: string, b: string)
    requires Below(a, b)
    ensures !Below(b, a)
    decreases |a|
  {
    if |a| > 0 && a[0] == b[0] {
      BelowAsymmetric(a[1..], b[1..]);
    }
  }

  lemma {:induction false} BelowTransitive(a: string, b: string, c: string)
    requires Below(a, b) && Below(b, c)
    ensures Below(a, c)
    decreases |a|
  {
    if |a| > 0 && a[0] == b[0] && b[0] == c[0] {
      BelowTransitive(a[1..], b[1..], c[1..]);
    }
  }

  lemma {:induction false} BelowTotal(a: string, b: string)
    requires a != b
    ensures Below(a, b) || Below(b, a)
    decreases |a|
  {
    if |a| > 0 && |b| > 0 && a[0] == b[0] {
      assert a == [a[0]] + a[1..] && b == [b[0]] + b[1..];
      BelowTotal(a[1..], b[1..]);
    }
  }

  lemma BelowIsStrictOrder()
    ensures forall a, b :: Below(a, b) ==> !Below(b, a)
    ensures forall a :: !Below(a, a)
  {
    forall a, b | Below(a, b) ensures !Below(b, a) {
      BelowAsymmetric(a, b);
    }
    forall a ensures !Below(a, a) {
      BelowIrreflexive(a);
    }
  }

  // ---------------------------------------------------------------- sorting

  predicate StrictlyAscending(s: seq<string>) {
    forall i, j :: 0 <= i < j < |s| ==> Below(s[i], s[j])
  }

  /** `m` is the smallest version of `vs`. */
  predicate IsLeast(m: string, vs: set<string>) {
    m in vs && forall v :: v in vs && v != m ==> Below(m, v)
  }

  lemma {:induction false} LeastExists(vs: set<string>)
    requires vs != {}
    ensures exists m :: IsLeast(m, vs)
    decreases |vs|
  {
    var x :| x in vs;
    var rest := vs - {x};
    if rest == {} {
      assert vs == {x};
      assert IsLeast(x, vs);
    } else {
      LeastExists(rest);
      var m :| IsLeast(m, rest);
      if Below(x, m) {
        forall v | v in vs && v != x
          ensures Below(x, v)
        {
          if v != m {
            BelowTransitive(x, m, v);
          }
        }
        assert IsLeast(x, vs);
      } else {
        BelowTotal(x, m);
        assert IsLeast(m, vs);
      }
    }
  }

  /** A set has at most one least version. */
  lemma LeastUnique(vs: set<string>)
    ensures forall m, m' :: IsLeast(m, vs) && IsLeast(m', vs) ==> m == m'
  {
    forall m, m' | IsLeast(m, vs) && IsLeast(m', vs)
      ensures m == m'
    {
      if m != m' {
        BelowAsymmetric(m, m');
      }
    }
  }

  /** `sorted(list(versions))`: the versions of a set in ascending order. */
  function SortedVersions(vs: set<string>): (r: seq<string>)
    ensures StrictlyAscending(r)
    ensures forall v :: v in r <==> v in vs
    ensures |r| == |vs|
    decreases |vs|
  {
    if vs == {} then []
    else
      LeastExists(vs);
      LeastUnique(vs);
      var m :| IsLeast(m, vs);
      var rest := SortedVersions(vs - {m});
      LeastFirst(m, vs, rest);
      [m] + rest
  }

  /** The least version followed by the others in ascending order is the whole set in
      ascending order. */
  lemma LeastFirst(m: string, vs: set<string>, rest: seq<string>)
    requires IsLeast(m, vs)
    requires StrictlyAscending(rest) && |rest| == |vs - {m}|
    requires forall v :: v in rest <==> v in vs - {m}
    ensures StrictlyAscending([m] + rest)
    ensures forall v :: v in [m] + rest <==> v in vs
    ensures |[m] + rest| == |vs|
  {
    var s := [m] + rest;
    forall i, j | 0 <= i < j < |s|
      ensures Below(s[i], s[j])
    {
      if i == 0 {
        assert s[j] == rest[j - 1] && rest[j - 1] in rest;
      } else {
        assert s[i] == rest[i - 1] && s[j] == rest[j - 1];
      }
    }
  }

  /** There is exactly one ascending enumeration of a set of versions, so the
      order `sorted` produces does not depend on the set's iteration order. */
  lemma {:induction false} AscendingEnumerationUnique(a: seq<string>, b: seq<string>)
    requires StrictlyAscending(a) && StrictlyAscending(b)
    requires forall v :: v in a <==> v in b
    ensures a == b
    decreases |a|
  {
    BelowIsStrictOrder();
    assert |a| > 0 ==> a[0] in a;
    assert |b| > 0 ==> b[0] in b;
    if |a| > 0 && |b| > 0 {
      assert a[0] in b && b[0] in a;
      assert a[0] == b[0];
      forall v
        ensures v in a[1..] <==> v in b[1..]
      {
        assert v in a[1..] <==> v in a && v != a[0];
        assert v in b[1..] <==> v in b && v != b[0];
      }
      AscendingEnumerationUnique(a[1..], b[1..]);
    }
  }

  /** The last sorted version (`sorted_versions[-1]`) is the greatest. */
  lemma LastIsGreatest(vs: set<string>)
    requires vs != {}
    ensures var s := SortedVersions(vs);
            forall v :: v in vs && v != s[|s| - 1] ==> Below(v, s[|s| - 1])
  {
    var s := SortedVersions(vs);
    forall v | v in vs && v != s[|s| - 1]
      ensures Below(v, s[|s| - 1])
    {
      var i :| 0 <= i < |s| && s[i] == v;
    }
  }

  // ---------------------------------------------------------------- remediation

  /** The rows of the remediation table, in the order they are tried. */
  datatype Ecosystem = Maven | Python | Npm | Unlisted

  /** Which row of the table an ecosystem `type` string selects: the first whose
      substrings it contains. */
  function EcosystemOf(kind: string): (e: Ecosystem)
    ensures e == Maven <==> Contains(kind, "maven") || Contains(kind, "java")
    ensures e == Python <==> e != Maven && (Contains(kind, "python") || Contains(kind, "pip"))
    ensures e == Npm <==> e != Maven && e != Python && (Contains(kind, "npm") || Contains(kind, "node"))
  {
    if Contains(kind, "maven") || Contains(kind, "java") then Maven
    else if Contains(kind, "python") || Contains(kind, "pip") then Python
    else if Contains(kind, "npm") || Contains(kind, "node") then Npm
    else Unlisted
  }

  /** `_generate_remediation`: the advice of the first table row the type matches. Every
      advice names the package, and all but the npm one name the latest version. */
  function Remediation(name: string, kind: string, latest: string): (r: string)
    ensures Contains(kind, "maven") || Contains(kind, "java") ==> r == MavenAdvice(name, latest)
    ensures (!(Contains(kind, "maven") || Contains(kind, "java"))
             && (Contains(kind, "python") || Contains(kind, "pip")))
            ==> r == PythonAdvice(name, latest)
    ensures (!(Contains(kind, "maven") || Contains(kind, "java"))
             && !(Contains(kind, "python") || Contains(kind, "pip"))
             && (Contains(kind, "npm") || Contains(kind, "node")))
            ==> r == NpmAdvice(name)
    ensures (!(Contains(kind, "maven") || Contains(kind, "java"))
             && !(Contains(kind, "python") || Contains(kind, "pip"))
             && !(Contains(kind, "npm") || Contains(kind, "node")))
            ==> r == GenericAdvice(name, latest)
    ensures Contains(r, name)
    ensures EcosystemOf(kind) != Npm ==> Contains(r, latest)
  {
    match EcosystemOf(kind)
    case Maven => MavenAdvice(name, latest)
    case Python => PythonAdvice(name, latest)
    case Npm => NpmAdvice(name)
    case Unlisted => GenericAdvice(name, latest)
  }

  function MavenAdvice(name: string, latest: string): (r: string)
    ensures Contains(r, name) && Contains(r, latest)
  {
    var lead := "Identify the root cause using `mvn dependency:tree -Dverbose -Dincludes=";
    var middle := "`. Then, force convergence by adding `" + name + ":";
    var tail := "` to the `<dependencyManagement>` section of your root pom.xml.";
    ContainsBothSpliced(lead, name, middle, latest, tail);
    lead + name + middle + latest + tail
  }

  function PythonAdvice(name: string, latest: string): (r: string)
    ensures Contains(r, name) && Contains(r, latest)
  {
    var lead := "Check your requirements using `pipdeptree -p ";
    var middle := "`. Pin `" + name + "==";
    var tail := "` in your requirements.txt or use a lockfile manager like Poetry/Pipenv.";
    ContainsBothSpliced(lead, name, middle, latest, tail);
    lead + name + middle + latest + tail
  }

  /** The npm advice is the one row that does not name a version. */
  function NpmAdvice(name: string): (r: string)
    ensures Contains(r, name)
  {
    var lead := "Run `npm list ";
    var tail := "` to see the tree. Consider using `npm dedupe` or adding an 'overrides' section in package.json for `"
      + name + "`.";
    ContainsSpliced(lead, name, tail);
    lead + name + tail
  }

  function GenericAdvice(name: string, latest: string): (r: string)
    ensures Contains(r, name) && Contains(r, latest)
  {
    var lead := "Investigate build configuration to ensure only version ";
    ContainsBothSpliced(lead, latest, " of ", name, " is used.");
    lead + latest + " of " + name + " is used."
  }

  // ---------------------------------------------------------------- grouping

  /** The registry's keys in insertion order: each `(name, type)` once, at its first
      occurrence. */
  function KeysOf(ps: seq<Package>): seq<Key>
  {
    if |ps| == 0 then []
    else
      var ks := KeysOf(ps[..|ps| - 1]);
      var k := KeyOf(ps[|ps| - 1]);
      if k in ks then ks else ks + [k]
  }

  /** `registry[key]`: the distinct versions recorded under `key`. */
  function VersionsOf(ps: seq<Package>, key: Key): set<string>
  {
    if |ps| == 0 then {}
    else
      VersionsOf(ps[..|ps| - 1], key)
      + (if KeyOf(ps[|ps| - 1]) == key then {ps[|ps| - 1].version} else {})
  }

  /** The conflict dictionary of a group with at least two versions. */
  function ConflictOf(key: Key, vs: set<string>): (c: Conflict)
    requires |vs| > 1
    ensures c.package == key.name && c.kind == key.kind && c.severity == "MEDIUM"
  {
    var sorted := SortedVersions(vs);
    Conflict(
      key.name, key.kind, sorted, "MEDIUM",
      "Multiple versions of '" + key.name + "' detected: " + Join(sorted, ", ")
      + ". This can lead to runtime errors or unpredictable behavior.",
      Remediation(key.name, key.kind, sorted[|sorted| - 1]))
  }

  /** A conflict lists the group's versions once each in ascending order, and its
      advice is about the greatest of them. */
  lemma ConflictVersions(key: Key, vs: set<string>)
    requires |vs| > 1
    ensures var c := ConflictOf(key, vs);
            && StrictlyAscending(c.versions) && (forall v :: v in c.versions <==> v in vs)
            && |c.versions| == |vs|
            && c.remediation == Remediation(key.name, key.kind, c.versions[|c.versions| - 1])
  {
  }

  /** The conflicts reported for the given registry keys, in key order. */
  function ConflictsOver(keys: seq<Key>, ps: seq<Package>): seq<Conflict>
  {
    if |keys| == 0 then []
    else
      var k := keys[|keys| - 1];
      var vs := VersionsOf(ps, k);
      ConflictsOver(keys[..|keys| - 1], ps) + (if |vs| > 1 then [ConflictOf(k, vs)] else [])
  }

  /** What `_find_conflicts` returns for a list of artifacts. */
  function Conflicts(ps: seq<Package>): seq<Conflict>
  {
    ConflictsOver(KeysOf(ps), ps)
  }

  /** `_find_conflicts`: fill the registry, then report every group with more than
      one version. */
  method FindConflicts(sbom: Sbom) returns (conflicts: seq<Conflict>)
    ensures conflicts == Conflicts(sbom.artifacts.GetOr([]))
  {
    var packages := sbom.artifacts.GetOr([]);
    var keys, registry := FillRegistry(packages);
    conflicts := [];
    for j := 0 to |keys|
      invariant conflicts == ConflictsOver(keys[..j], packages)
    {
      ConflictsStep(keys, j, packages);
      var versions := registry[keys[j]];
      assert versions == VersionsOf(packages, keys[j]);
      if |versions| > 1 {
        conflicts := conflicts + [ConflictOf(keys[j], versions)];
      }
    }
    assert keys[..|keys|] == keys;
  }

  /** The first loop of `_find_conflicts`: the registry of versions per `(name, type)`,
      with its keys in insertion order. */
  method FillRegistry(packages: seq<Package>) returns (keys: seq<Key>, registry: map<Key, set<string>>)
    ensures keys == KeysOf(packages)
    ensures forall k :: k in registry <==> k in keys
    ensures forall k :: k in registry ==> registry[k] == VersionsOf(packages, k)
  {
    keys := [];
    registry := map[];
    for i := 0 to |packages|
      invariant RegistryOf(packages[..i], keys, registry)
    {
      ghost var keys0, registry0 := keys, registry;
      var key := KeyOf(packages[i]);
      if key !in registry {
        registry := registry[key := {}];
        keys := keys + [key];
      }
      registry := registry[key := registry[key] + {packages[i].version}];
      RegistryAdvance(packages, i, keys0, registry0);
    }
    assert packages[..|packages|] == packages;
  }

  /** `keys` and `registry` are what the first loop of `_find_conflicts` has built from
      the artifacts `ps`. */
  ghost predicate RegistryOf(ps: seq<Package>, keys: seq<Key>, registry: map<Key, set<string>>) {
    && keys == KeysOf(ps)
    && (forall k :: k in registry <==> k in keys)
    && (forall k :: k in registry ==> registry[k] == VersionsOf(ps, k))
  }

  /** One iteration of the registry loop. */
  lemma RegistryAdvance(ps: seq<Package>, i: nat, keys: seq<Key>, registry: map<Key, set<string>>)
    requires i < |ps| && RegistryOf(ps[..i], keys, registry)
    ensures var key := KeyOf(ps[i]);
            var keys' := if key in registry then keys else keys + [key];
            var group := if key in registry then registry[key] else {};
            RegistryOf(ps[..i + 1], keys', registry[key := group + {ps[i].version}])
  {
    RegistryStep(ps, i);
    var key := KeyOf(ps[i]);
    if key !in registry {
      VersionsAbsent(ps[..i], key);
    }
  }

  // ---------------------------------------------------------------- grouping facts

  /** What one more artifact does to the registry. */
  lemma RegistryStep(ps: seq<Package>, i: nat)
    requires i < |ps|
    ensures var k := KeyOf(ps[i]);
            KeysOf(ps[..i + 1]) == if k in KeysOf(ps[..i]) then KeysOf(ps[..i]) else KeysOf(ps[..i]) + [k]
    ensures forall key :: VersionsOf(ps[..i + 1], key)
                          == VersionsOf(ps[..i], key) + (if KeyOf(ps[i]) == key then {ps[i].version} else {})
  {
    assert ps[..i + 1][..i] == ps[..i];
  }

  /** What one more registry key does to the report. */
  lemma ConflictsStep(keys: seq<Key>, j: nat, ps: seq<Package>)
    requires j < |keys|
    ensures var vs := VersionsOf(ps, keys[j]);
            ConflictsOver(keys[..j + 1], ps)
            == ConflictsOver(keys[..j], ps) + (if |vs| > 1 then [ConflictOf(keys[j], vs)] else [])
  {
    assert keys[..j + 1][..j] == keys[..j];
  }

  /** A key is in the registry iff some artifact carries it. */
  lemma {:induction false} KeysOfMembers(ps: seq<Package>, k: Key)
    ensures k in KeysOf(ps) <==> exists a :: 0 <= a < |ps| && KeyOf(ps[a]) == k
  {
    if |ps| > 0 {
      var prefix := ps[..|ps| - 1];
      KeysOfMembers(prefix, k);
      if exists a :: 0 <= a < |ps| && KeyOf(ps[a]) == k {
        var a :| 0 <= a < |ps| && KeyOf(ps[a]) == k;
        if a < |ps| - 1 {
          assert KeyOf(prefix[a]) == k;
        }
      }
      if exists a :: 0 <= a < |prefix| && KeyOf(prefix[a]) == k {
        var a :| 0 <= a < |prefix| && KeyOf(prefix[a]) == k;
        assert KeyOf(ps[a]) == k;
      }
    }
  }

  lemma {:induction false} KeysOfDistinct(ps: seq<Package>)
    ensures Distinct(KeysOf(ps))
  {
    if |ps| > 0 {
      KeysOfDistinct(ps[..|ps| - 1]);
    }
  }

  /** A key that no artifact carries has no versions. */
  lemma {:induction false} VersionsAbsent(ps: seq<Package>, k: Key)
    requires k !in KeysOf(ps)
    ensures VersionsOf(ps, k) == {}
  {
    if |ps| > 0 {
      VersionsAbsent(ps[..|ps| - 1], k);
    }
  }

  /** A version is in a group iff some artifact of that key has it; so repeated
      identical versions count once. */
  lemma {:induction false} VersionsOfMembers(ps: seq<Package>, k: Key, v: string)
    ensures v in VersionsOf(ps, k) <==> exists a :: 0 <= a < |ps| && KeyOf(ps[a]) == k && ps[a].version == v
  {
    if |ps| > 0 {
      var prefix := ps[..|ps| - 1];
      VersionsOfMembers(prefix, k, v);
      if exists a :: 0 <= a < |ps| && KeyOf(ps[a]) == k && ps[a].version == v {
        var a :| 0 <= a < |ps| && KeyOf(ps[a]) == k && ps[a].version == v;
        if a < |ps| - 1 {
          assert prefix[a] == ps[a];
        }
      }
      if exists a :: 0 <= a < |prefix| && KeyOf(prefix[a]) == k && prefix[a].version == v {
        var a :| 0 <= a < |prefix| && KeyOf(prefix[a]) == k && prefix[a].version == v;
        assert ps[a] == prefix[a];
      }
    }
  }

  /** Registry keys appear in order of first occurrence: the i-th key occurs at some
      position before which the j-th key (j > i) never occurs. */
  lemma {:induction false} KeysOfFirstOccurrenceOrder(ps: seq<Package>, i: nat, j: nat)
    requires i < j < |KeysOf(ps)|
    ensures exists a :: 0 <= a < |ps| && KeyOf(ps[a]) == KeysOf(ps)[i]
                        && forall b :: 0 <= b <= a ==> KeyOf(ps[b]) != KeysOf(ps)[j]
  {
    var prefix := ps[..|ps| - 1];
    var ks := KeysOf(prefix);
    var ki := KeysOf(ps)[i];
    var kj := KeysOf(ps)[j];
    if j < |ks| {
      assert ks[i] == ki && ks[j] == kj;
      KeysOfFirstOccurrenceOrder(prefix, i, j);
      var a :| 0 <= a < |prefix| && KeyOf(prefix[a]) == ki
               && forall b :: 0 <= b <= a ==> KeyOf(prefix[b]) != kj;
      assert KeyOf(ps[a]) == ki;
      forall b | 0 <= b <= a
        ensures KeyOf(ps[b]) != kj
      {
        assert ps[b] == prefix[b];
      }
    } else {
      assert ki == ks[i] && kj !in ks;
      KeysOfMembers(prefix, ki);
      KeysOfMembers(prefix, kj);
      var a :| 0 <= a < |prefix| && KeyOf(prefix[a]) == ki;
      assert KeyOf(ps[a]) == ki;
      forall b | 0 <= b <= a
        ensures KeyOf(ps[b]) != kj
      {
        assert ps[b] == prefix[b];
      }
    }
  }

  // ---------------------------------------------------------------- conflict facts

  function KeyOfConflict(c: Conflict): Key {
    Key(c.package, c.kind)
  }

  /** The keys of a list of conflicts, in list order. */
  function ConflictKeys(cs: seq<Conflict>): seq<Key>
  {
    if |cs| == 0 then [] else ConflictKeys(cs[..|cs| - 1]) + [KeyOfConflict(cs[|cs| - 1])]
  }

  /** The registry keys whose group has more than one version, in registry order. */
  function MultiVersionKeys(keys: seq<Key>, ps: seq<Package>): seq<Key>
  {
    if |keys| == 0 then []
    else
      MultiVersionKeys(keys[..|keys| - 1], ps)
      + (if |VersionsOf(ps, keys[|keys| - 1])| > 1 then [keys[|keys| - 1]] else [])
  }

  /** The report names exactly the multi-version keys, in registry order. */
  lemma {:induction false} ConflictKeysInOrder(keys: seq<Key>, ps: seq<Package>)
    ensures ConflictKeys(ConflictsOver(keys, ps)) == MultiVersionKeys(keys, ps)
  {
    if |keys| > 0 {
      var init := keys[..|keys| - 1];
      ConflictKeysInOrder(init, ps);
      ConflictKeysLast(keys, ps);
    }
  }

  /** The inductive step of `ConflictKeysInOrder`: the last key adds one key on each
      side, or none on either. */
  lemma ConflictKeysLast(keys: seq<Key>, ps: seq<Package>)
    requires |keys| > 0
    ensures ConflictKeys(ConflictsOver(keys, ps))
            == ConflictKeys(ConflictsOver(keys[..|keys| - 1], ps))
               + (if |VersionsOf(ps, keys[|keys| - 1])| > 1 then [keys[|keys| - 1]] else [])
  {
    var init := keys[..|keys| - 1];
    var k := keys[|keys| - 1];
    var vs := VersionsOf(ps, k);
    var before := ConflictsOver(init, ps);
    if |vs| > 1 {
      var c := ConflictOf(k, vs);
      ConflictKeysAppend(before, c);
    } else {
      assert before + [] == before;
    }
  }

  lemma ConflictKeysAppend(cs: seq<Conflict>, c: Conflict)
    ensures ConflictKeys(cs + [c]) == ConflictKeys(cs) + [KeyOfConflict(c)]
  {
    assert (cs + [c])[..|cs|] == cs;
  }

  /** Every reported conflict is the conflict of its own key's group, and that group
      has more than one version. */
  lemma {:induction false} ConflictsOverMembers(keys: seq<Key>, ps: seq<Package>)
    ensures forall c :: c in ConflictsOver(keys, ps) ==>
              var vs := VersionsOf(ps, KeyOfConflict(c));
              |vs| > 1 && c == ConflictOf(KeyOfConflict(c), vs)
  {
    if |keys| > 0 {
      var init := keys[..|keys| - 1];
      var k := keys[|keys| - 1];
      var vs := VersionsOf(ps, k);
      ConflictsOverMembers(init, ps);
      forall c | c in ConflictsOver(keys, ps)
        ensures var vs' := VersionsOf(ps, KeyOfConflict(c));
                |vs'| > 1 && c == ConflictOf(KeyOfConflict(c), vs')
      {
        if c !in ConflictsOver(init, ps) {
          assert |vs| > 1 && c == ConflictOf(k, vs);
        }
      }
    }
  }

  /** A key is among the multi-version keys iff it is a registry key with more than
      one version. */
  lemma {:induction false} MultiVersionKeysMembers(keys: seq<Key>, ps: seq<Package>, k: Key)
    ensures k in MultiVersionKeys(keys, ps) <==> k in keys && |VersionsOf(ps, k)| > 1
  {
    if |keys| > 0 {
      var init := keys[..|keys| - 1];
      MultiVersionKeysMembers(init, ps, k);
      assert keys == init + [keys[|keys| - 1]];
    }
  }

  /** Filtering distinct keys keeps them distinct. */
  lemma {:induction false} MultiVersionKeysDistinct(keys: seq<Key>, ps: seq<Package>)
    requires Distinct(keys)
    ensures Distinct(MultiVersionKeys(keys, ps))
  {
    if |keys| > 0 {
      var init := keys[..|keys| - 1];
      var k := keys[|keys| - 1];
      MultiVersionKeysDistinct(init, ps);
      MultiVersionKeysMembers(init, ps, k);
    }
  }

  lemma {:induction false} ConflictKeysMembers(cs: seq<Conflict>, k: Key)
    ensures k in ConflictKeys(cs) <==> exists c :: c in cs && KeyOfConflict(c) == k
  {
    if |cs| > 0 {
      var init := cs[..|cs| - 1];
      ConflictKeysMembers(init, k);
      assert cs == init + [cs[|cs| - 1]];
    }
  }

  lemma {:induction false} ConflictKeysIndex(cs: seq<Conflict>, n: nat)
    requires n < |cs|
    ensures |ConflictKeys(cs)| == |cs| && ConflictKeys(cs)[n] == KeyOfConflict(cs[n])
  {
    if n < |cs| - 1 {
      ConflictKeysIndex(cs[..|cs| - 1], n);
    } else if n > 0 {
      ConflictKeysIndex(cs[..|cs| - 1], 0);
    }
  }

  /** A conflict is reported for `(name, type)` iff its group has more than one
      distinct version. */
  lemma ConflictIffSeveralVersions(ps: seq<Package>, k: Key)
    ensures (exists c :: c in Conflicts(ps) && KeyOfConflict(c) == k) <==> |VersionsOf(ps, k)| > 1
  {
    ConflictKeysInOrder(KeysOf(ps), ps);
    ConflictKeysMembers(Conflicts(ps), k);
    MultiVersionKeysMembers(KeysOf(ps), ps, k);
    if k !in KeysOf(ps) {
      VersionsAbsent(ps, k);
    }
  }

  /** Each key is reported at most once, and every report is MEDIUM with exactly its
      group's distinct versions in ascending order. */
  lemma ConflictsAreWellFormed(ps: seq<Package>)
    ensures var cs := Conflicts(ps);
            forall a, b :: 0 <= a < b < |cs| ==> KeyOfConflict(cs[a]) != KeyOfConflict(cs[b])
    ensures forall c :: c in Conflicts(ps) ==>
              (&& c.severity == "MEDIUM"
               && StrictlyAscending(c.versions)
               && (forall v :: v in c.versions <==> v in VersionsOf(ps, KeyOfConflict(c))))
  {
    var cs := Conflicts(ps);
    KeysOfDistinct(ps);
    ConflictKeysInOrder(KeysOf(ps), ps);
    MultiVersionKeysDistinct(KeysOf(ps), ps);
    forall a, b | 0 <= a < b < |cs|
      ensures KeyOfConflict(cs[a]) != KeyOfConflict(cs[b])
    {
      ConflictKeysIndex(cs, a);
      ConflictKeysIndex(cs, b);
    }
    ConflictsOverMembers(KeysOf(ps), ps);
    forall c | c in cs
      ensures StrictlyAscending(c.versions)
      ensures forall v :: v in c.versions <==> v in VersionsOf(ps, KeyOfConflict(c))
    {
      ConflictVersions(KeyOfConflict(c), VersionsOf(ps, KeyOfConflict(c)));
    }
  }

  /** An SBOM without an `artifacts` list yields no conflicts. */
  lemma NoArtifactsNoConflicts(ps: seq<Package>)
    requires |ps| == 0
    ensures Conflicts(ps) == []
  {
  }

  // ---------------------------------------------------------------- scan

  /** The syft command line for a repository. */
  function SyftInvocation(repoPath: string): (c: Invocation)
    ensures |c.argv| >= 3 && c.argv[0] == "syft" && c.argv[2] == "dir:" + repoPath && c.timeout == 600 && c.stdin == ""
  {
    Invocation(["syft", "packages", "dir:" + repoPath, "-o", "json"], 600, "", "")
  }

  /** `scan`: the decision around the detector. `syftOnPath` is what `shutil.which`
      reports, `decode` what parsing syft's output yields. */
  method Scan(enabled: bool, syftOnPath: bool, repoPath: string, run: Runner,
              decode: string -> SbomDecode)
    returns (r: ScanResult)
    ensures !enabled <==> r == Disabled
    ensures enabled && !syftOnPath ==> r == Problem(NotInstalled, "Syft binary not found")
    ensures enabled && syftOnPath ==>
              var o := run(SyftInvocation(repoPath));
              match o
              case Exited(code, out, err) =>
                if code != 0 then r == Problem(Failed, err)
                else (match decode(out)
                      case Unparsable => r == Problem(Failed, "Failed to parse Syft output")
                      case Malformed(msg) => r == Problem(Error, msg)
                      case Decoded(sbom) =>
                        r == Findings(Conflicts(sbom.artifacts.GetOr([])), Completed, "syft"))
              case TimedOut => r == Problem(Timeout, "Syft analysis timed out")
              case NotFound(msg) => r == Problem(Error, msg)
              case Raised(msg) => r == Problem(Error, msg)
  {
    if !enabled {
      return Disabled;
    }
    if !syftOnPath {
      return Problem(NotInstalled, "Syft binary not found");
    }
    var o := run(SyftInvocation(repoPath));
    match o
    case Exited(code, out, err) =>
      if code != 0 {
        return Problem(Failed, err);
      }
      match decode(out) {
        case Unparsable =>
          r := Problem(Failed, "Failed to parse Syft output");
        case Malformed(msg) =>
          r := Problem(Error, msg);
        case Decoded(sbom) =>
          var findings := FindConflicts(sbom);
          r := Findings(findings, Completed, "syft");
      }
    case TimedOut =>
      r := Problem(Timeout, "Syft analysis timed out");
    case NotFound(msg) =>
      r := Problem(Error, msg);
    case Raised(msg) =>
      r := Problem(Error, msg);
  }
}

/** The detection contract: what correlation joins on (`orchestrator/detection.py`). */
module Detections {
  import opened Common

  datatype Namespace = USER | HOST | IP | PROCESS | HASH | URL | DOMAIN

  /** A value with the namespace it lives in; a folded one is what two detections are joined on. */
  datatype Key = Key(ns: Namespace, value: string)

  datatype Entities = Entities(user: string, host: string, hostIp: string, process: string,
                               srcIp: string, dstIp: string, fileHash: string, url: string, domain: string)
  {
    /** The nine fields in the vocabulary's order; three of them share the `ip` namespace. */
    function Fields(): seq<Key> {
      [Key(USER, user), Key(HOST, host), Key(IP, hostIp), Key(PROCESS, process),
       Key(IP, srcIp), Key(IP, dstIp), Key(HASH, fileHash), Key(URL, url), Key(DOMAIN, domain)]
    }
  }

  datatype Detection = Detection(sourceTool: string, detectedAt: int, severity: string,
                                 techniques: set<string>, entities: Entities)

  // --- Cleaning ------------------------------------------------------------

  const PLACEHOLDERS: set<string> :=
    {"", "-", "n/a", "na", "none", "null", "unknown", "undefined", "nil", "tbd"}

  const ENTITY_LIMIT := 255

  function CleanEntity(v: string): string {
    var text := Strip(v);
    if Lower(text) in PLACEHOLDERS then ""
    else if |text| <= ENTITY_LIMIT then text
    else text[..ENTITY_LIMIT]
  }

  function Cleaned(e: Entities): Entities {
    Entities(CleanEntity(e.user), CleanEntity(e.host), CleanEntity(e.hostIp), CleanEntity(e.process),
             CleanEntity(e.srcIp), CleanEntity(e.dstIp), CleanEntity(e.fileHash), CleanEntity(e.url),
             CleanEntity(e.domain))
  }

  /** Cleaning a cleaned value again changes nothing. */
  predicate Stable(e: Entities) { Cleaned(e) == e }

  /** The guard a caller can evaluate before the call: the cut at 255 does not land after a blank. */
  predicate CutIsClean(v: string) {
    var text := Strip(v);
    |text| <= ENTITY_LIMIT || !IsSpace(text[ENTITY_LIMIT - 1])
  }

  lemma PlaceholdersAreShort(s: string)
    requires s in PLACEHOLDERS
    ensures |s| < 10
  {
  }

  /** Cleaning trims, drops what only stands for nothing, and keeps the first 255 characters of the rest. */
  lemma CleaningKeeps(v: string)
    ensures CleanEntity(v) <= Strip(v) && |CleanEntity(v)| <= 255
    ensures CleanEntity(v) == "" <==>
      Lower(Strip(v)) in {"", "-", "n/a", "na", "none", "null", "unknown", "undefined", "nil", "tbd"}
    ensures CleanEntity(v) != "" ==> |CleanEntity(v)| == Min(|Strip(v)|, 255)
  {
    assert Lower("") == "";
  }

  /** Cleaning is idempotent exactly on the values whose cut is clean. */
  lemma CleaningTwice(v: string)
    ensures CleanEntity(CleanEntity(v)) == CleanEntity(v) <==> CutIsClean(v)
  {
    var text := Strip(v);
    var once := CleanEntity(v);
    StripTight(v);
    StripOfTight(once);
    if Lower(text) in PLACEHOLDERS {
      PlaceholdersAreShort(Lower(text));
      assert Lower("") == "";
    } else if |text| > ENTITY_LIMIT {
      assert once == text[..ENTITY_LIMIT] && once[0] == text[0];
      if Lower(once) in PLACEHOLDERS {
        PlaceholdersAreShort(Lower(once));
      }
      if IsSpace(once[ENTITY_LIMIT - 1]) {
        assert Strip(once) != once;
        if CleanEntity(once) == once {
          StripTight(once);
          assert Strip(once) == once || |Strip(once)| > ENTITY_LIMIT;
          StripShrinks(once);
        }
      }
    }
  }

  lemma {:induction false} StripRightShrinks(s: string)
    ensures |StripRight(s)| <= |s|
  {
    if s != "" && IsSpace(s[|s| - 1]) { StripRightShrinks(s[..|s| - 1]); }
  }

  lemma {:induction false} StripShrinks(s: string)
    ensures |Strip(s)| <= |s|
  {
    if s != "" && IsSpace(s[0]) { StripShrinks(s[1..]); } else { StripRightShrinks(s); }
  }

  // --- Namespaced values and correlation keys --------------------------------

  function Folded(k: Key): Key { Key(k.ns, Lower(k.value)) }

  predicate HasFolded(ks: seq<Key>, k: Key) {
    exists x :: x in ks && Folded(x) == Folded(k)
  }

  function NamespacedOf(fields: seq<Key>): seq<Key> {
    if fields == [] then []
    else
      var rest := NamespacedOf(fields[..|fields| - 1]);
      var f := fields[|fields| - 1];
      if f.value != "" && !HasFolded(rest, f) then rest + [f] else rest
  }

  function NamespacedValues(e: Entities): seq<Key> { NamespacedOf(e.Fields()) }

  /** The folded keys of an entity record, as a set: one for every populated field. */
  function KeySet(e: Entities): set<Key> {
    set f | f in e.Fields() && f.value != "" :: Folded(f)
  }

  predicate DistinctFolded(ks: seq<Key>) {
    forall i, j :: 0 <= i < j < |ks| ==> Folded(ks[i]) != Folded(ks[j])
  }

  /** The values kept are pairwise distinct after folding, and lose no populated field. */
  lemma {:induction false} NamespacedIsExact(fields: seq<Key>)
    ensures DistinctFolded(NamespacedOf(fields))
    ensures forall x :: x in NamespacedOf(fields) ==> x in fields && x.value != ""
    ensures forall f :: f in fields && f.value != "" ==> HasFolded(NamespacedOf(fields), f)
  {
    if fields != [] {
      var front, f := fields[..|fields| - 1], fields[|fields| - 1];
      var rest := NamespacedOf(front);
      NamespacedIsExact(front);
      assert fields == front + [f];
      if f.value != "" && !HasFolded(rest, f) {
        assert forall i :: 0 <= i < |rest| ==> rest[i] in rest;
        forall g | g in fields && g.value != "" ensures HasFolded(rest + [f], g) {
          if g in front { HasFoldedGrows(rest, f, g); } else { assert f in rest + [f]; }
        }
      }
    }
  }

  lemma HasFoldedGrows(ks: seq<Key>, k: Key, g: Key)
    requires HasFolded(ks, g)
    ensures HasFolded(ks + [k], g)
  {
    var x :| x in ks && Folded(x) == Folded(g);
    assert x in ks + [k];
  }

  /** The loop over the field vocabulary. */
  method CollectNamespaced(e: Entities) returns (pairs: seq<Key>)
    ensures pairs == NamespacedValues(e)
    ensures DistinctFolded(pairs)
    ensures (set x | x in pairs :: Folded(x)) == KeySet(e)
  {
    var fields := e.Fields();
    pairs := [];
    for i := 0 to |fields|
      invariant pairs == NamespacedOf(fields[..i])
    {
      assert fields[..i + 1][..i] == fields[..i];
      if fields[i].value != "" && !HasFolded(pairs, fields[i]) {
        pairs := pairs + [fields[i]];
      }
    }
    assert fields[..|fields|] == fields;
    NamespacedIsExact(fields);
    KeysAreTheKeySet(e);
  }

  lemma KeysAreTheKeySet(e: Entities)
    ensures (set x | x in NamespacedValues(e) :: Folded(x)) == KeySet(e)
  {
    NamespacedIsExact(e.Fields());
    var ks := set x | x in NamespacedValues(e) :: Folded(x);
    forall k | k in KeySet(e) ensures k in ks {
      var f :| f in e.Fields() && f.value != "" && Folded(f) == k;
      assert HasFolded(NamespacedValues(e), f);
    }
  }

  /** Which fields a key may come from: any of three for an address, one for everything else. */
  function FieldsOf(e: Entities, ns: Namespace): set<string> {
    match ns
    case USER => {e.user}
    case HOST => {e.host}
    case IP => {e.hostIp, e.srcIp, e.dstIp}
    case PROCESS => {e.process}
    case HASH => {e.fileHash}
    case URL => {e.url}
    case DOMAIN => {e.domain}
  }

  lemma FieldsByNamespace(e: Entities, ns: Namespace, v: string)
    ensures v in FieldsOf(e, ns) <==> Key(ns, v) in e.Fields()
  {
    var f := e.Fields();
    assert f[0] == Key(USER, e.user) && f[1] == Key(HOST, e.host) && f[2] == Key(IP, e.hostIp);
    assert f[3] == Key(PROCESS, e.process) && f[4] == Key(IP, e.srcIp) && f[5] == Key(IP, e.dstIp);
    assert f[6] == Key(HASH, e.fileHash) && f[7] == Key(URL, e.url) && f[8] == Key(DOMAIN, e.domain);
  }

  /** A key stands for a populated field of its namespace, whatever the case. */
  lemma KeysByField(e: Entities, k: Key)
    ensures k in KeySet(e) <==> exists v :: v in FieldsOf(e, k.ns) && v != "" && Lower(v) == k.value
  {
    hide Lower, FieldsOf;
    if k in KeySet(e) {
      var f :| f in e.Fields() && f.value != "" && Folded(f) == k;
      assert f == Key(k.ns, f.value);
      FieldsByNamespace(e, k.ns, f.value);
    }
    if v :| v in FieldsOf(e, k.ns) && v != "" && Lower(v) == k.value {
      FieldsByNamespace(e, k.ns, v);
      assert Folded(Key(k.ns, v)) == k;
    }
  }

  /** `x` is at `i`, and nothing before it folds to the same. */
  predicate FirstAt(fields: seq<Key>, i: nat, x: Key)
    requires i < |fields|
  {
    fields[i] == x && x.value != "" && forall j :: 0 <= j < i && fields[j].value != "" ==> Folded(fields[j]) != Folded(x)
  }

  /** Of two spellings of one value the field that comes first gives the one that is kept. */
  lemma {:induction false} FirstSpellingIsKept(fields: seq<Key>, x: Key)
    ensures x in NamespacedOf(fields) <==> exists i :: 0 <= i < |fields| && FirstAt(fields, i, x)
  {
    hide Folded;
    if fields != [] {
      var n := |fields| - 1;
      var front := fields[..n];
      FirstSpellingIsKept(front, x);
      assert forall i :: 0 <= i < n ==> (FirstAt(front, i, x) <==> FirstAt(fields, i, x));
      LastFieldIsKeptIff(fields, x);
    }
  }

  lemma LastFieldIsKeptIff(fields: seq<Key>, x: Key)
    requires fields != []
    ensures var n := |fields| - 1;
      (x in NamespacedOf(fields) && x !in NamespacedOf(fields[..n])) <==> (FirstAt(fields, n, x) && x !in NamespacedOf(fields[..n]))
  {
    hide Folded;
    var n := |fields| - 1;
    var front, f := fields[..n], fields[n];
    NamespacedIsExact(front);
    assert forall j :: 0 <= j < n ==> front[j] == fields[j] && front[j] in front;
    if FirstAt(fields, n, x) {
      forall y | y in NamespacedOf(front) ensures Folded(y) != Folded(x) {
        var j :| 0 <= j < n && front[j] == y;
      }
    } else if f == x && x.value != "" {
      var j :| 0 <= j < n && fields[j].value != "" && Folded(fields[j]) == Folded(x);
      assert HasFolded(NamespacedOf(front), front[j]);
    }
  }

  const JOINABLE: set<Namespace> := {IP, USER, HOST, HASH, URL}

  function FoldAll(ks: seq<Key>): seq<Key> {
    seq(|ks|, i requires 0 <= i < |ks| => Folded(ks[i]))
  }

  function JoinableOf(ks: seq<Key>): seq<Key> {
    if ks == [] then []
    else if ks[0].ns in JOINABLE then [ks[0]] + JoinableOf(ks[1..])
    else JoinableOf(ks[1..])
  }

  /** The keys a new detection is matched on: folded, strong namespaces only. */
  function JoinKeys(e: Entities): seq<Key> { JoinableOf(FoldAll(NamespacedValues(e))) }

  lemma {:induction false} JoinableIn(ks: seq<Key>, k: Key)
    ensures k in JoinableOf(ks) <==> k in ks && k.ns in JOINABLE
  {
    if ks != [] {
      JoinableIn(ks[1..], k);
      assert ks == [ks[0]] + ks[1..];
    }
  }

  lemma JoinKeysAre(e: Entities, k: Key)
    ensures k in JoinKeys(e) <==> k in KeySet(e) && k.ns in JOINABLE
  {
    var ns := NamespacedValues(e);
    JoinableIn(FoldAll(ns), k);
    KeysAreTheKeySet(e);
    if k in FoldAll(ns) {
      var i :| 0 <= i < |ns| && FoldAll(ns)[i] == k;
      assert ns[i] in ns;
    }
    if k in KeySet(e) {
      assert k in (set x | x in ns :: Folded(x));
      var x :| x in ns && Folded(x) == k;
      var i :| 0 <= i < |ns| && ns[i] == x;
      assert FoldAll(ns)[i] == k;
    }
  }

  // --- Severity ---------------------------------------------------------------

  /** Position in the severity order; an unknown class ranks below all four. */
  function SeverityRank(s: string): int {
    if s == "CRITICAL" then 3
    else if s == "HIGH" then 2
    else if s == "MEDIUM" then 1
    else if s == "LOW" then 0
    else -1
  }

  predicate IsMaxSeverity(values: seq<string>, r: string) {
    && SeverityRank(r) >= 0
    && (r == "LOW" || r in values)
    && forall v :: v in values ==> SeverityRank(v) <= SeverityRank(r)
  }

  function MaxSeverity(values: seq<string>): (r: string)
    ensures IsMaxSeverity(values, r)
  {
    if values == [] then "LOW"
    else
      var best := MaxSeverity(values[..|values| - 1]);
      var v := values[|values| - 1];
      assert values == values[..|values| - 1] + [v];
      if SeverityRank(v) > SeverityRank(best) then v else best
  }

  lemma MaxSeverityIsUnique(values: seq<string>, r: string)
    requires IsMaxSeverity(values, r)
    ensures r == MaxSeverity(values)
  {
    var m := MaxSeverity(values);
    assert SeverityRank(m) == SeverityRank(r);
  }

  method FindMaxSeverity(values: seq<string>) returns (best: string)
    ensures IsMaxSeverity(values, best)
    ensures best == if "CRITICAL" in values then "CRITICAL" else if "HIGH" in values then "HIGH"
                    else if "MEDIUM" in values then "MEDIUM" else "LOW"
  {
    best := "LOW";
    for i := 0 to |values|
      invariant IsMaxSeverity(values[..i], best)
    {
      assert values[..i + 1] == values[..i] + [values[i]];
      if SeverityRank(values[i]) > SeverityRank(best) {
        best := values[i];
      }
    }
    assert values[..|values|] == values;
  }
}

/** The web front end's persona library: persona records loaded from S3
    through a five-minute cache, resolution by a fixed candidate priority,
    the system context handed to the chat, and group-name normalisation.
    S3 and `Date.now()` are parameters. */
module PersonaTs {
  import opened Wrappers
  import opened Strings
  import opened TtlCache

  datatype Persona = Persona(
    id: string,
    name: string,
    iamGroups: seq<string>,
    tone: string,
    preferredSources: seq<string>,
    formatting: Option<string>,
    answerGuidance: Option<seq<string>>,
    glossaryAliases: Option<map<string, seq<string>>>)

  datatype SystemContext = SystemContext(
    tone: string,
    preferredSources: seq<string>,
    answerGuidance: seq<string>,
    glossaryAliases: map<string, seq<string>>)

  /** Milliseconds an entry stays fresh. */
  const CacheMs: int := 5 * 60 * 1000

  function PersonaKey(id: string): string { "personas/" + id + ".json" }

  /** Resolution order of `resolvePersona`. */
  const Candidates: seq<string> := ["engineer", "delivery-manager", "compliance"]

  /** `persona.iam_groups.some(g => groups.includes(g))` */
  predicate Intersects(iamGroups: seq<string>, groups: seq<string>)
  {
    exists g | g in iamGroups :: g in groups
  }

  /** One `loadPersona(id)` against cache `m`; `s3` answers per object key. */
  function LoadAt(m: Entries<Persona>, id: string, now: int, s3: string -> Result<Persona, string>): Outcome<Persona>
  {
    Load(m, PersonaKey(id), now, CacheMs, s3(PersonaKey(id)))
  }

  /** The candidate loop from `cands` on, then the engineer fallback: the
      result and the cache it leaves. A load error ends the scan. */
  function Scan(m: Entries<Persona>, cands: seq<string>, groups: seq<string>, now: int,
                s3: string -> Result<Persona, string>): (Result<Persona, string>, Entries<Persona>)
    decreases |cands|
  {
    if cands == [] then
      var o := LoadAt(m, "engineer", now, s3);
      (o.result, o.entries)
    else
      var o := LoadAt(m, cands[0], now, s3);
      if o.result.Failure? || Intersects(o.result.value.iamGroups, groups) then (o.result, o.entries)
      else Scan(o.entries, cands[1..], groups, now, s3)
  }

  /** The persona `loadPersona(id)` yields on the cache as it was before
      resolution started. */
  function PersonaAt(m: Entries<Persona>, id: string, now: int, s3: string -> Result<Persona, string>): Result<Persona, string>
  {
    LoadAt(m, id, now, s3).result
  }

  /** The candidate-priority rule stated without the cache threading: the
      first candidate whose groups meet the caller's, else the engineer. */
  function ByPriority(m: Entries<Persona>, groups: seq<string>, now: int,
                      s3: string -> Result<Persona, string>): Result<Persona, string>
  {
    var e := PersonaAt(m, "engineer", now, s3);
    var d := PersonaAt(m, "delivery-manager", now, s3);
    var c := PersonaAt(m, "compliance", now, s3);
    if e.Failure? || Intersects(e.value.iamGroups, groups) then e
    else if d.Failure? || Intersects(d.value.iamGroups, groups) then d
    else if c.Failure? || Intersects(c.value.iamGroups, groups) then c
    else e
  }

  /** Loading one persona leaves every other persona's load unchanged. */
  lemma LoadOtherKey(m: Entries<Persona>, a: string, b: string, now: int, s3: string -> Result<Persona, string>)
    requires PersonaKey(a) != PersonaKey(b)
    ensures LoadAt(LoadAt(m, a, now, s3).entries, b, now, s3).result == LoadAt(m, b, now, s3).result
  {
  }

  /** A persona just loaded successfully is served from the cache on the
      next load at the same instant. */
  lemma ReloadIsAHit(m: Entries<Persona>, id: string, now: int, s3: string -> Result<Persona, string>)
    requires LoadAt(m, id, now, s3).result.Success?
    ensures LoadAt(LoadAt(m, id, now, s3).entries, id, now, s3) ==
            Outcome(LoadAt(m, id, now, s3).result, LoadAt(m, id, now, s3).entries, false)
  {
  }

  /** `resolvePersona` follows the candidate priority: its result is the
      one `ByPriority` gives on the cache it started from. */
  lemma {:induction false} ScanFollowsPriority(m: Entries<Persona>, groups: seq<string>, now: int,
                                               s3: string -> Result<Persona, string>)
    ensures Scan(m, Candidates, groups, now, s3).0 == ByPriority(m, groups, now, s3)
  {
    var ke, kd, kc := PersonaKey("engineer"), PersonaKey("delivery-manager"), PersonaKey("compliance");
    assert ke != kd && ke != kc && kd != kc by {
      assert ke[9] == 'e' && kd[9] == 'd' && kc[9] == 'c';
    }
    var o1 := LoadAt(m, "engineer", now, s3);
    var o2 := LoadAt(o1.entries, "delivery-manager", now, s3);
    ScanUnrolled(m, groups, now, s3);
    LoadOtherKey(m, "engineer", "delivery-manager", now, s3);
    LoadOtherKey(m, "engineer", "compliance", now, s3);
    LoadOtherKey(o1.entries, "delivery-manager", "compliance", now, s3);
    var o3 := LoadAt(o2.entries, "compliance", now, s3);
    assert o2.result == PersonaAt(m, "delivery-manager", now, s3);
    assert o3.result == PersonaAt(m, "compliance", now, s3);
    if o1.result.Success? {
      FallbackIsAHit(m, now, s3);
    }
  }

  /** The scan over the three candidates, written out load by load. */
  lemma {:induction false} ScanUnrolled(m: Entries<Persona>, groups: seq<string>, now: int,
                                        s3: string -> Result<Persona, string>)
    ensures var o1 := LoadAt(m, "engineer", now, s3);
            var o2 := LoadAt(o1.entries, "delivery-manager", now, s3);
            var o3 := LoadAt(o2.entries, "compliance", now, s3);
            Scan(m, Candidates, groups, now, s3).0 ==
              if o1.result.Failure? || Intersects(o1.result.value.iamGroups, groups) then o1.result
              else if o2.result.Failure? || Intersects(o2.result.value.iamGroups, groups) then o2.result
              else if o3.result.Failure? || Intersects(o3.result.value.iamGroups, groups) then o3.result
              else LoadAt(o3.entries, "engineer", now, s3).result
  {
    var o1 := LoadAt(m, "engineer", now, s3);
    var o2 := LoadAt(o1.entries, "delivery-manager", now, s3);
    assert Candidates[0] == "engineer" && Candidates[1..] == ["delivery-manager", "compliance"];
    assert ["delivery-manager", "compliance"][1..] == ["compliance"];
    assert Scan(o2.entries, ["compliance"], groups, now, s3) ==
           Scan(LoadAt(o2.entries, "compliance", now, s3).entries, [], groups, now, s3)
           || LoadAt(o2.entries, "compliance", now, s3).result.Failure?
           || Intersects(LoadAt(o2.entries, "compliance", now, s3).result.value.iamGroups, groups);
  }

  /** After the three candidate loads, the fallback load of the engineer
      is still a cache hit. */
  lemma {:induction false} FallbackIsAHit(m: Entries<Persona>, now: int, s3: string -> Result<Persona, string>)
    requires LoadAt(m, "engineer", now, s3).result.Success?
    ensures var o1 := LoadAt(m, "engineer", now, s3);
            var o2 := LoadAt(o1.entries, "delivery-manager", now, s3);
            var o3 := LoadAt(o2.entries, "compliance", now, s3);
            LoadAt(o3.entries, "engineer", now, s3).result == o1.result
  {
    var ke, kd, kc := PersonaKey("engineer"), PersonaKey("delivery-manager"), PersonaKey("compliance");
    assert ke != kd && ke != kc by {
      assert ke[9] == 'e' && kd[9] == 'd' && kc[9] == 'c';
    }
    var o1 := LoadAt(m, "engineer", now, s3);
    var o2 := LoadAt(o1.entries, "delivery-manager", now, s3);
    ReloadIsAHit(m, "engineer", now, s3);
    LoadOtherKey(o1.entries, "delivery-manager", "engineer", now, s3);
    LoadOtherKey(o2.entries, "compliance", "engineer", now, s3);
  }

  /** The caller's group order is irrelevant: only which groups occur matters. */
  lemma GroupOrderIrrelevant(m: Entries<Persona>, groups1: seq<string>, groups2: seq<string>, now: int,
                             s3: string -> Result<Persona, string>)
    requires forall g :: g in groups1 <==> g in groups2
    ensures ByPriority(m, groups1, now, s3) == ByPriority(m, groups2, now, s3)
  {
  }

  /** The module-wide persona cache of the library. */
  class PersonaCache {
    var entries: Entries<Persona>

    constructor ()
      ensures entries == map[]
    {
      entries := map[];
    }

    /** `loadPersona`: a fresh entry is returned without fetching; otherwise
        the fetched persona is stored at `now`, and a fetch error is passed
        to the caller with the cache untouched. */
    method LoadPersona(id: string, now: int, s3: string -> Result<Persona, string>) returns (r: Result<Persona, string>)
      modifies this
      ensures r == LoadAt(old(entries), id, now, s3).result
      ensures entries == LoadAt(old(entries), id, now, s3).entries
    {
      var o := Load(entries, PersonaKey(id), now, CacheMs, s3(PersonaKey(id)));
      entries := o.entries;
      r := o.result;
    }

    /** `resolvePersona`: load each candidate in turn and stop at the first
        whose groups meet the caller's; otherwise load the engineer again. */
    method ResolvePersona(groups: seq<string>, now: int, s3: string -> Result<Persona, string>)
      returns (r: Result<Persona, string>)
      modifies this
      ensures (r, entries) == Scan(old(entries), Candidates, groups, now, s3)
      ensures r == ByPriority(old(entries), groups, now, s3)
    {
      ghost var m0 := entries;
      var k := 0;
      while k < |Candidates|
        invariant 0 <= k <= |Candidates|
        invariant Scan(m0, Candidates, groups, now, s3) == Scan(entries, Candidates[k..], groups, now, s3)
      {
        var p := LoadPersona(Candidates[k], now, s3);
        if p.Failure? || Intersects(p.value.iamGroups, groups) {
          ScanFollowsPriority(m0, groups, now, s3);
          return p;
        }
        assert Candidates[k..][1..] == Candidates[k + 1..];
        k := k + 1;
      }
      r := LoadPersona("engineer", now, s3);
      ScanFollowsPriority(m0, groups, now, s3);
    }

    /** `getDefaultPersona`: the engineer persona, loaded through the cache. */
    method DefaultPersona(now: int, s3: string -> Result<Persona, string>) returns (r: Result<Persona, string>)
      modifies this
      ensures r == LoadAt(old(entries), "engineer", now, s3).result
      ensures entries == LoadAt(old(entries), "engineer", now, s3).entries
    {
      r := LoadPersona("engineer", now, s3);
    }
  }

  /** `personaToSystemContext`: tone and sources are copied, guidance
      defaults to an empty list and aliases to an empty record. */
  function PersonaToSystemContext(p: Persona): (c: SystemContext)
    ensures c.tone == p.tone && c.preferredSources == p.preferredSources
    ensures c.answerGuidance == (if p.answerGuidance.Some? then p.answerGuidance.value else [])
    ensures c.glossaryAliases == (if p.glossaryAliases.Some? then p.glossaryAliases.value else map[])
  {
    SystemContext(p.tone, p.preferredSources, p.answerGuidance.GetOr([]), p.glossaryAliases.GetOr(map[]))
  }

  /** The canonical group names, by lower-cased alias. */
  const GroupAliases: map<string, string> := map[
    "engineering" := "VaultMesh-Engineering",
    "delivery" := "VaultMesh-Delivery",
    "compliance" := "VaultMesh-Compliance",
    "management" := "VaultMesh-Management"
  ]

  /** `normalizeGroups` with the table read as its own four entries only:
      each group becomes its canonical name when its lower-cased form is an
      alias, and is kept as it is otherwise. */
  function NormalizeGroups(raw: seq<string>): (r: seq<string>)
    ensures |r| == |raw|
    ensures forall i | 0 <= i < |raw| :: r[i] == if Lower(raw[i]) in GroupAliases then GroupAliases[Lower(raw[i])] else raw[i]
  {
    seq(|raw|, i requires 0 <= i < |raw| => if Lower(raw[i]) in GroupAliases then GroupAliases[Lower(raw[i])] else raw[i])
  }

  /** No canonical name is itself an alias once lower-cased. */
  lemma CanonicalNamesAreNotAliases()
    ensures forall a | a in GroupAliases :: Lower(GroupAliases[a]) !in GroupAliases
  {
    assert Lower("VaultMesh-Engineering")[0] == 'v';
    assert Lower("VaultMesh-Delivery")[0] == 'v';
    assert Lower("VaultMesh-Compliance")[0] == 'v';
    assert Lower("VaultMesh-Management")[0] == 'v';
  }

  /** Normalising twice is normalising once. */
  lemma {:induction false} NormalizeIdempotent(raw: seq<string>)
    ensures NormalizeGroups(NormalizeGroups(raw)) == NormalizeGroups(raw)
  {
    CanonicalNamesAreNotAliases();
    var once := NormalizeGroups(raw);
    var twice := NormalizeGroups(once);
    forall i | 0 <= i < |raw| ensures twice[i] == once[i] {
      if Lower(raw[i]) in GroupAliases {
        assert once[i] == GroupAliases[Lower(raw[i])];
      }
    }
  }

  /** What a property read on a plain JavaScript object yields: one of its
      own string entries, or a member every object inherits (a function, or
      the prototype object itself for `__proto__`). */
  datatype JsValue = JsStr(s: string) | JsInherited(member: string)

  /** Members of `Object.prototype` that any object literal answers to. */
  const InheritedMembers: set<string> := {
    "constructor", "__proto__", "hasOwnProperty", "isPrototypeOf", "propertyIsEnumerable",
    "toString", "toLocaleString", "valueOf",
    "__defineGetter__", "__defineSetter__", "__lookupGetter__", "__lookupSetter__"
  }

  /** `mapping[key]` on the object literal, as the source looks it up. */
  function LookupAsWritten(key: string): (r: Option<JsValue>)
    ensures key in GroupAliases ==> r == Some(JsStr(GroupAliases[key]))
    ensures r.None? <==> key !in GroupAliases && key !in InheritedMembers
  {
    if key in GroupAliases then Some(JsStr(GroupAliases[key]))
    else if key in InheritedMembers then Some(JsInherited(key))
    else None
  }

  /** `rawGroups.map(g => mapping[g.toLowerCase()] || g)` as written: every
      inherited member is truthy, so it replaces the group. */
  function NormalizeGroupsAsWritten(raw: seq<string>): (r: seq<JsValue>)
    ensures |r| == |raw|
    ensures forall i | 0 <= i < |raw| && Lower(raw[i]) !in InheritedMembers :: r[i] == JsStr(NormalizeGroups(raw)[i])
  {
    seq(|raw|, i requires 0 <= i < |raw| =>
      var v := LookupAsWritten(Lower(raw[i]));
      if v.Some? then v.value else JsStr(raw[i]))
  }

  /** A group named "Constructor" comes out as the Object constructor
      function rather than a group name. */
  lemma ConstructorGroupIsNotAString()
    ensures NormalizeGroupsAsWritten(["Constructor"]) == [JsInherited("constructor")]
    ensures NormalizeGroups(["Constructor"]) == ["Constructor"]
  {
    assert Lower("Constructor") == "constructor";
  }
}

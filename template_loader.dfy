/**
 * The client-side template catalogue: the two built-in templates and the
 * `TemplateLibrary` class, a JavaScript `Map` from the joined key
 * `category:mode:id` to a template.
 */
module TemplateLoader {
  import opened Base
  import opened Seqs

  /** The structured part of a template; `sections` and `variables` are optional fields. */
  datatype TemplateContent = TemplateContent(
    purpose: string,
    instructions: seq<string>,
    sections: Option<seq<string>>,
    variables: Option<seq<string>>)

  datatype PromptTemplate = PromptTemplate(
    id: string,
    name: string,
    category: string,
    mode: string,
    content: TemplateContent)

  const ContentGeneration: PromptTemplate :=
    PromptTemplate(
      "content-generation", "Content Generation", "expansion", "content",
      TemplateContent(
        "Transform brief topic ideas into comprehensive, well-structured content",
        ["Create an engaging introduction that hooks the reader",
         "Develop at least 3 main points or sections",
         "Include relevant examples or case studies",
         "Maintain a consistent tone and style",
         "Add a compelling conclusion that ties everything together",
         "Use transition sentences between sections"],
        Some(["introduction", "main_points", "examples", "conclusion"]),
        Some(["topic", "target_length", "tone"])))

  /** Stored under mode `explain`, while the editor offers the mode `explanation`. */
  const Explanation: PromptTemplate :=
    PromptTemplate(
      "explanation", "Explanation", "expansion", "explain",
      TemplateContent(
        "Convert complex concepts into clear, accessible explanations",
        ["Start with a simple, high-level overview",
         "Break down complex terms into simpler components",
         "Use analogies or metaphors to illustrate concepts",
         "Progress from basic to advanced understanding",
         "Include practical examples or applications",
         "Address common misconceptions"],
        Some(["overview", "key_concepts", "analogies", "examples", "common_questions"]),
        Some(["concept", "audience_expertise", "desired_depth"])))

  /** `defaultTemplates`, in declaration order. */
  const DefaultTemplates: seq<PromptTemplate> := [ContentGeneration, Explanation]

  /** The two defaults are stored under different keys, which differ even in length. */
  lemma DefaultKeysDiffer()
    ensures |KeyOf(ContentGeneration)| == 36 && |KeyOf(Explanation)| == 29
    ensures KeyOf(ContentGeneration) != KeyOf(Explanation)
  {
  }

  /** What a library holding just the defaults lists for a category and mode. */
  function DefaultListing(category: string, mode: string): seq<PromptTemplate> {
    Filter(DefaultTemplates, CategoryAndModeAre(category, mode))
  }

  /** The default listing holds exactly the defaults stored under that category and mode. */
  lemma DefaultListingMembers(category: string, mode: string)
    ensures forall t :: t in DefaultListing(category, mode)
                        <==> t in DefaultTemplates && t.category == category && t.mode == mode
  {
  }

  /** The map key `${category}:${mode}:${id}`: a plain join, so a `:` inside a part is not escaped. */
  function Key(category: string, mode: string, id: string): (k: string)
    ensures |k| == |category| + |mode| + |id| + 2
  {
    category + ":" + mode + ":" + id
  }

  function KeyOf(t: PromptTemplate): string {
    Key(t.category, t.mode, t.id)
  }

  /** The filter predicate of `getTemplatesForCategory`. */
  function CategoryIs(category: string): PromptTemplate -> bool {
    (t: PromptTemplate) => t.category == category
  }

  /** The filter predicate of `getTemplatesForMode`. */
  function CategoryAndModeAre(category: string, mode: string): PromptTemplate -> bool {
    (t: PromptTemplate) => t.category == category && t.mode == mode
  }

  /** A colon-free head before a colon is determined by the joined string. */
  lemma ColonSplit(a: string, r1: string, b: string, r2: string)
    requires ':' !in a && ':' !in b
    requires a + ":" + r1 == b + ":" + r2
    ensures a == b && r1 == r2
  {
    var s := a + ":" + r1;
    assert s[|a|] == ':' && s[|b|] == ':';
    assert forall k :: 0 <= k < |a| ==> s[k] == a[k];
    assert forall k :: 0 <= k < |b| ==> s[k] == b[k];
    assert |a| == |b|;
    assert a == s[..|a|] == b;
    assert r1 == s[|a| + 1..] == r2;
  }

  /** When category and mode hold no `:`, the joined key determines the whole triple. */
  lemma KeyInjective(c1: string, m1: string, i1: string, c2: string, m2: string, i2: string)
    requires ':' !in c1 && ':' !in m1 && ':' !in c2 && ':' !in m2
    requires Key(c1, m1, i1) == Key(c2, m2, i2)
    ensures c1 == c2 && m1 == m2 && i1 == i2
  {
    assert Key(c1, m1, i1) == c1 + ":" + (m1 + ":" + i1);
    assert Key(c2, m2, i2) == c2 + ":" + (m2 + ":" + i2);
    ColonSplit(c1, m1 + ":" + i1, c2, m2 + ":" + i2);
    ColonSplit(m1, i1, m2, i2);
  }

  /** Two different triples that join to the same key: `a:b`,`c` and `a`,`b:c`. */
  lemma KeyCollision(id: string)
    ensures ("a:b", "c", id) != ("a", "b:c", id)
    ensures Key("a:b", "c", id) == Key("a", "b:c", id)
  {
    assert "a:b" + ":" + "c" == "a" + ":" + "b:c";
  }

  /** The map's keys in insertion order: a new key goes last, an existing key keeps its place. */
  function PutKey(keys: seq<string>, key: string): (r: seq<string>)
    ensures key in r
    ensures forall k :: k in r <==> k in keys || k == key
    ensures key in keys ==> r == keys
  {
    if key in keys then keys else keys + [key]
  }

  /** The values of the map, listed in key order (what `Array.from(map.values())` yields). */
  function InOrder(keys: seq<string>, templates: map<string, PromptTemplate>): (r: seq<PromptTemplate>)
    requires forall k :: k in keys ==> k in templates
    ensures |r| == |keys|
    ensures forall i :: 0 <= i < |keys| ==> r[i] == templates[keys[i]]
  {
    if keys == [] then [] else [templates[keys[0]]] + InOrder(keys[1..], templates)
  }

  /** Keys and map after setting each template of `ts` in turn, as `forEach(t => map.set(key(t), t))` does. */
  function SetAll(keys: seq<string>, templates: map<string, PromptTemplate>, ts: seq<PromptTemplate>)
    : (seq<string>, map<string, PromptTemplate>)
  {
    if ts == [] then (keys, templates)
    else
      var (k, m) := SetAll(keys, templates, ts[..|ts| - 1]);
      var t := ts[|ts| - 1];
      (PutKey(k, KeyOf(t)), m[KeyOf(t) := t])
  }

  class TemplateLibrary {
    /** The keys of the private `templates` Map, in insertion order. */
    var keys: seq<string>
    /** The private `templates` Map. */
    var templates: map<string, PromptTemplate>

    /** Keys are listed once each, exactly the keys of the map, and each entry sits under its own key. */
    ghost predicate Valid()
      reads this
    {
      && (forall i, j :: 0 <= i < j < |keys| ==> keys[i] != keys[j])
      && (forall k :: k in templates <==> k in keys)
      && (forall k :: k in templates ==> KeyOf(templates[k]) == k)
    }

    /** `Array.from(this.templates.values())`. */
    function Values(): (vs: seq<PromptTemplate>)
      reads this
      requires Valid()
      ensures |vs| == |templates|
      ensures forall t :: t in vs <==> t in templates.Values
    {
      var vs := InOrder(keys, templates);
      assert forall t :: t in templates.Values ==> t in vs by {
        forall t | t in templates.Values ensures t in vs {
          var k :| k in templates && templates[k] == t;
          var i :| 0 <= i < |keys| && keys[i] == k;
          assert vs[i] == t;
        }
      }
      DistinctKeysCount();
      vs
    }

    lemma DistinctKeysCount()
      requires Valid()
      ensures |templates| == |keys|
    {
      var ks := set i | 0 <= i < |keys| :: keys[i];
      assert ks == templates.Keys;
      DistinctCard(keys);
    }

    static lemma {:induction false} DistinctCard(s: seq<string>)
      requires forall i, j :: 0 <= i < j < |s| ==> s[i] != s[j]
      ensures |set i | 0 <= i < |s| :: s[i]| == |s|
    {
      if s != [] {
        var last := s[|s| - 1];
        var init := s[..|s| - 1];
        DistinctCard(init);
        assert (set i | 0 <= i < |s| :: s[i]) == (set i | 0 <= i < |init| :: init[i]) + {last};
        assert last !in (set i | 0 <= i < |init| :: init[i]);
      }
    }

    /** `new TemplateLibrary()`: an empty map filled by `loadDefaultTemplates`. */
    constructor ()
      ensures Valid()
      ensures keys == [KeyOf(ContentGeneration), KeyOf(Explanation)]
      ensures templates == map[KeyOf(ContentGeneration) := ContentGeneration, KeyOf(Explanation) := Explanation]
    {
      keys := [];
      templates := map[];
      new;
      LoadDefaultTemplates();
      DefaultKeysDiffer();
      FromEmpty(ContentGeneration, Explanation);
    }

    /** A library holding exactly the two defaults lists them in order, finds each, and lists for a category and mode what the defaults filtered by them give. */
    lemma DefaultsLoaded()
      requires Valid()
      requires keys == [KeyOf(ContentGeneration), KeyOf(Explanation)]
      requires templates == map[KeyOf(ContentGeneration) := ContentGeneration, KeyOf(Explanation) := Explanation]
      ensures Values() == DefaultTemplates
      ensures forall t :: t in DefaultTemplates ==> GetTemplate(t.category, t.mode, t.id) == Some(t)
      ensures forall category, mode :: GetTemplatesForMode(category, mode) == DefaultListing(category, mode)
    {
      DefaultKeysDiffer();
      TwoRetrievable(ContentGeneration, Explanation);
    }

    /** Two templates under different keys set into an empty map give the two-entry map, keys in order. */
    static lemma FromEmpty(t0: PromptTemplate, t1: PromptTemplate)
      requires KeyOf(t0) != KeyOf(t1)
      ensures PutKey(PutKey([], KeyOf(t0)), KeyOf(t1)) == [KeyOf(t0), KeyOf(t1)]
      ensures map[][KeyOf(t0) := t0][KeyOf(t1) := t1] == map[KeyOf(t0) := t0, KeyOf(t1) := t1]
    {
    }

    /** Setting two templates in turn: each key is put in order, the later entry wins on a shared key. */
    static lemma SetTwo(keys: seq<string>, templates: map<string, PromptTemplate>, t0: PromptTemplate, t1: PromptTemplate)
      ensures SetAll(keys, templates, [t0, t1])
           == (PutKey(PutKey(keys, KeyOf(t0)), KeyOf(t1)), templates[KeyOf(t0) := t0][KeyOf(t1) := t1])
    {
      var ts := [t0, t1];
      assert [t0][..0] == [];
      assert SetAll(keys, templates, [t0]) == (PutKey(keys, KeyOf(t0)), templates[KeyOf(t0) := t0]);
      assert ts[..1] == [t0] && ts[1] == t1;
    }

    /** A library holding two templates under different keys lists both in order and finds each by its triple. */
    lemma TwoRetrievable(t0: PromptTemplate, t1: PromptTemplate)
      requires Valid() && KeyOf(t0) != KeyOf(t1)
      requires keys == [KeyOf(t0), KeyOf(t1)]
      requires templates == map[KeyOf(t0) := t0, KeyOf(t1) := t1]
      ensures Values() == [t0, t1]
      ensures GetTemplate(t0.category, t0.mode, t0.id) == Some(t0)
      ensures GetTemplate(t1.category, t1.mode, t1.id) == Some(t1)
    {
    }

    /** `loadDefaultTemplates`: sets the content-generation template, then the explanation template, each under its key. */
    method LoadDefaultTemplates()
      requires Valid()
      modifies this
      ensures Valid()
      ensures keys == PutKey(PutKey(old(keys), KeyOf(ContentGeneration)), KeyOf(Explanation))
      ensures templates == old(templates)[KeyOf(ContentGeneration) := ContentGeneration][KeyOf(Explanation) := Explanation]
    {
      SetEach(DefaultTemplates);
      SetTwo(old(keys), old(templates), ContentGeneration, Explanation);
    }

    /** The `forEach` of `loadDefaultTemplates`: each template set under its key, in order. */
    method SetEach(ts: seq<PromptTemplate>)
      requires Valid()
      modifies this
      ensures Valid()
      ensures (keys, templates) == SetAll(old(keys), old(templates), ts)
    {
      for i := 0 to |ts|
        invariant Valid()
        invariant (keys, templates) == SetAll(old(keys), old(templates), ts[..i])
      {
        AddTemplate(ts[i]);
        assert ts[..i + 1][..i] == ts[..i];
      }
      assert ts[..|ts|] == ts;
    }

    /** `getTemplate`: the entry stored under the joined key, if any. */
    function GetTemplate(category: string, mode: string, id: string): (r: Option<PromptTemplate>)
      reads this
      requires Valid()
      ensures r.Some? <==> Key(category, mode, id) in templates
      ensures r.Some? ==> r.value in templates.Values && KeyOf(r.value) == Key(category, mode, id)
    {
      var key := Key(category, mode, id);
      if key in templates then Some(templates[key]) else None
    }

    /** `getTemplatesForCategory`: the stored templates of one category, in map order. */
    function GetTemplatesForCategory(category: string): (r: seq<PromptTemplate>)
      reads this
      requires Valid()
      ensures forall t :: t in r <==> t in templates.Values && t.category == category
    {
      Filter(Values(), CategoryIs(category))
    }

    /** `getTemplatesForMode`: the stored templates of one category and mode, in map order. */
    function GetTemplatesForMode(category: string, mode: string): (r: seq<PromptTemplate>)
      reads this
      requires Valid()
      ensures forall t :: t in r <==> t in templates.Values && t.category == category && t.mode == mode
    {
      Filter(Values(), CategoryAndModeAre(category, mode))
    }

    /** The mode listing is the category listing narrowed to one mode, so it is an ordered part of it. */
    lemma ModeListingNarrowsCategoryListing(category: string, mode: string)
      requires Valid()
      ensures GetTemplatesForMode(category, mode)
           == Filter(GetTemplatesForCategory(category), CategoryAndModeAre(category, mode))
      ensures forall t :: t in GetTemplatesForMode(category, mode) ==> t in GetTemplatesForCategory(category)
    {
      FilterNarrower(Values(), CategoryAndModeAre(category, mode), CategoryIs(category));
    }

    /** With colon-free category and mode, a found template has exactly the triple asked for. */
    lemma GetTemplateMatchesTriple(category: string, mode: string, id: string)
      requires Valid()
      requires ':' !in category && ':' !in mode
      ensures var r := GetTemplate(category, mode, id);
              r.Some? && ':' !in r.value.category && ':' !in r.value.mode
              ==> r.value.category == category && r.value.mode == mode && r.value.id == id
    {
      var r := GetTemplate(category, mode, id);
      if r.Some? && ':' !in r.value.category && ':' !in r.value.mode {
        KeyInjective(r.value.category, r.value.mode, r.value.id, category, mode, id);
      }
    }

    /** `addTemplate`: `set` under the joined key, overwriting whatever that key held. */
    method AddTemplate(template: PromptTemplate)
      requires Valid()
      modifies this
      ensures Valid()
      ensures keys == PutKey(old(keys), KeyOf(template))
      ensures templates == old(templates)[KeyOf(template) := template]
      ensures GetTemplate(template.category, template.mode, template.id) == Some(template)
      ensures KeyOf(template) in old(templates) ==> |templates| == old(|templates|)
      ensures forall k :: k in old(templates) && k != KeyOf(template) ==> k in templates && templates[k] == old(templates)[k]
    {
      var key := KeyOf(template);
      if key !in templates {
        keys := keys + [key];
      }
      templates := templates[key := template];
    }
  }

  /** `new TemplateLibrary().getTemplatesForMode(category, mode)`: a fresh library lists the defaults of that category and mode. */
  method FreshListing(category: string, mode: string) returns (r: seq<PromptTemplate>)
    ensures r == DefaultListing(category, mode)
  {
    var library := new TemplateLibrary();
    library.DefaultsLoaded();
    r := library.GetTemplatesForMode(category, mode);
  }

  /** Of the built-in templates none has mode `explanation`; the explanation one has mode `explain`. */
  lemma ExplanationStoredUnderExplain()
    ensures DefaultListing("expansion", "explanation") == []
    ensures DefaultListing("expansion", "explain") == [Explanation]
  {
    FilterTwo(ContentGeneration, Explanation, CategoryAndModeAre("expansion", "explanation"));
    FilterTwo(ContentGeneration, Explanation, CategoryAndModeAre("expansion", "explain"));
  }

  /** Adding two templates whose triples differ but whose keys collide leaves only the second. */
  method CollidingAdds() returns (first: Option<PromptTemplate>, count: nat)
    ensures first.Some? && first.value.category == "a" && first.value.mode == "b:c"
    ensures count == 3
  {
    var content := TemplateContent("", [], None, None);
    var t1 := PromptTemplate("x", "one", "a:b", "c", content);
    var t2 := PromptTemplate("x", "two", "a", "b:c", content);
    var library := new TemplateLibrary();
    DefaultKeysDiffer();
    var k0, k1, k := KeyOf(ContentGeneration), KeyOf(Explanation), KeyOf(t1);
    assert |k0| == 36 && |k1| == 29 && |k| == 7;
    assert library.keys == [k0, k1];
    assert k !in library.keys by {
      assert k != k0 && k != k1;
    }
    library.AddTemplate(t1);
    assert library.keys == [k0, k1] + [k];
    KeyCollision("x");
    assert KeyOf(t2) == k;
    library.AddTemplate(t2);
    assert |library.keys| == 3;
    first := library.GetTemplate("a:b", "c", "x");
    library.DistinctKeysCount();
    count := |library.templates|;
  }
}

/** The component knowledge base (ai-easyeda-compiler/component-knowledge-loader.js):
  * the `_specs.json` files the datasheet downloader writes, loaded into a
  * Map keyed by upper-cased component name, looked up with a three-step
  * fallback, and rendered as prompt context. */
module KnowledgeLoader {
  import opened Wrappers
  import opened Strings
  import opened Seqs

  const SpecsSuffix := "_specs.json"

  datatype Voltage = Voltage(min: Option<string>, typ: Option<string>, max: Option<string>)
  datatype Current = Current(operating: Option<string>, sleep: Option<string>)
  datatype Temperature = Temperature(min: Option<string>, max: Option<string>)

  /** The fields of a specs file the code reads. An absent or null field
    * is None; a present object field is Some even when empty, since
    * objects are truthy. */
  datatype ComponentSpecs = ComponentSpecs(
    component: Option<string>,
    sourceUrl: Option<string>,
    extractedAt: Option<string>,
    manufacturer: Option<string>,
    description: Option<string>,
    voltage: Option<Voltage>,
    current: Option<Current>,
    package: Option<string>,
    pins: Option<string>,
    temperature: Option<Temperature>,
    features: seq<string>,
    applications: seq<string>)

  /** The Map key of a loaded file: `(specs.component || file.replace('_specs.json', '')).toUpperCase()`. */
  function KeyOf(file: string, specs: ComponentSpecs): string
  {
    Upper(OrDefault(specs.component, ReplaceFirst(file, SpecsSuffix, "")))
  }

  /** `files.filter(f => f.endsWith('_specs.json'))`. */
  function SpecFiles(listing: seq<string>): seq<string>
  {
    Filter(listing, (f: string) => EndsWith(f, SpecsSuffix))
  }

  /** A Map with its insertion order: `order` lists the keys of `entries`
    * once each, oldest first. */
  datatype Table = Table(order: seq<string>, entries: map<string, ComponentSpecs>)

  ghost predicate Indexed(t: Table)
  {
    NoDups(t.order) && forall k :: k in t.order <==> k in t.entries
  }

  /** `map.set(key, value)`: a new key goes last, an existing key keeps its
    * place and takes the new value. */
  function Set(t: Table, key: string, value: ComponentSpecs): Table
  {
    Table(if key in t.entries then t.order else t.order + [key], t.entries[key := value])
  }

  /** The loop of loadAll over the spec files; `parse(f)` is the parsed
    * content of file f, None when reading or parsing throws (the file is
    * then skipped). */
  function Load(t: Table, files: seq<string>, parse: string -> Option<ComponentSpecs>): Table
  {
    if |files| == 0 then t
    else
      var prev := Load(t, files[..|files| - 1], parse);
      var f := files[|files| - 1];
      match parse(f)
      case None => prev
      case Some(specs) => Set(prev, KeyOf(f, specs), specs)
  }

  /** The keys the loaded files produce, in file order, repeats included. */
  function LoadedKeys(files: seq<string>, parse: string -> Option<ComponentSpecs>): seq<string>
  {
    if |files| == 0 then []
    else
      var prev := LoadedKeys(files[..|files| - 1], parse);
      var f := files[|files| - 1];
      match parse(f)
      case None => prev
      case Some(specs) => prev + [KeyOf(f, specs)]
  }

  lemma SetIndexed(t: Table, key: string, value: ComponentSpecs)
    requires Indexed(t)
    ensures Indexed(Set(t, key, value))
  {
  }

  /** Loading keeps the Map's order consistent with its contents; the keys
    * end up in first-appearance order, the existing ones first. */
  lemma {:induction false} LoadOrder(t: Table, files: seq<string>, parse: string -> Option<ComponentSpecs>)
    requires Indexed(t)
    ensures Indexed(Load(t, files, parse))
    ensures Load(t, files, parse).order == Dedupe(t.order + LoadedKeys(files, parse))
  {
    if |files| == 0 {
      assert t.order + [] == t.order;
      DedupeOfNoDups(t.order);
    } else {
      var init := files[..|files| - 1];
      var f := files[|files| - 1];
      LoadOrder(t, init, parse);
      var prev := Load(t, init, parse);
      match parse(f)
      case None =>
      case Some(specs) =>
        var k := KeyOf(f, specs);
        SetIndexed(prev, k, specs);
        assert t.order + LoadedKeys(files, parse) == (t.order + LoadedKeys(init, parse)) + [k];
        DedupeSnoc(t.order + LoadedKeys(init, parse), k);
    }
  }

  /** Later files overwrite earlier ones: a key holds the specs of the last
    * loaded file that produced it, and a key no file produced keeps its
    * old value. */
  lemma {:induction false} LoadLastWins(t: Table, files: seq<string>, parse: string -> Option<ComponentSpecs>, i: nat)
    requires i < |files| && parse(files[i]).Some?
    requires forall j :: i < j < |files| && parse(files[j]).Some? ==>
      KeyOf(files[j], parse(files[j]).value) != KeyOf(files[i], parse(files[i]).value)
    ensures var k := KeyOf(files[i], parse(files[i]).value);
      k in Load(t, files, parse).entries && Load(t, files, parse).entries[k] == parse(files[i]).value
  {
    var init := files[..|files| - 1];
    if i < |files| - 1 {
      LoadLastWins(t, init, parse, i);
    }
  }

  lemma {:induction false} LoadKeepsOthers(t: Table, files: seq<string>, parse: string -> Option<ComponentSpecs>, k: string)
    requires k in t.entries
    requires forall j :: 0 <= j < |files| && parse(files[j]).Some? ==> KeyOf(files[j], parse(files[j]).value) != k
    ensures k in Load(t, files, parse).entries && Load(t, files, parse).entries[k] == t.entries[k]
  {
    if |files| > 0 {
      LoadKeepsOthers(t, files[..|files| - 1], parse, k);
    }
  }

  // ---------------------------------------------------------------------
  // getSpecs
  // ---------------------------------------------------------------------

  predicate UpperOrDigit(c: char) { IsUpperAscii(c) || IsDigit(c) }

  /** `name.toUpperCase().replace(/[^A-Z0-9]/g, '')`. */
  function Normalize(name: string): string
  {
    FilterChars(Upper(name), UpperOrDigit)
  }

  predicate Overlaps(key: string, normalized: string)
  {
    Contains(key, normalized) || Contains(normalized, key)
  }

  /** The first key, in insertion order, that contains the normalized name
    * or is contained in it. */
  function FirstOverlap(order: seq<string>, normalized: string): (r: Option<nat>)
    ensures r.Some? ==> r.value < |order| && Overlaps(order[r.value], normalized)
    ensures r.Some? ==> forall j :: 0 <= j < r.value ==> !Overlaps(order[j], normalized)
    ensures r.None? ==> forall j :: 0 <= j < |order| ==> !Overlaps(order[j], normalized)
  {
    if |order| == 0 then None
    else if Overlaps(order[0], normalized) then Some(0)
    else match FirstOverlap(order[1..], normalized)
      case None => None
      case Some(j) => Some(j + 1)
  }

  /** getSpecs: the exact upper-cased name, then the normalized name, then
    * the first key in insertion order that overlaps the normalized name;
    * None stands for null. */
  function Lookup(t: Table, name: string): Option<ComponentSpecs>
    requires Indexed(t)
  {
    var exact := Upper(name);
    var normalized := Normalize(name);
    if exact in t.entries then Some(t.entries[exact])
    else if normalized in t.entries then Some(t.entries[normalized])
    else match FirstOverlap(t.order, normalized)
      case None => None
      case Some(i) => Some(t.entries[t.order[i]])
  }

  /** Every key contains the empty string, so a name with no letters or
    * digits gets the first loaded entry whenever neither it nor the empty
    * key is stored. */
  lemma EmptyNameMatchesFirst(t: Table, name: string)
    requires Indexed(t) && |t.order| > 0
    requires Normalize(name) == "" && Upper(name) !in t.entries && "" !in t.entries
    ensures Lookup(t, name) == Some(t.entries[t.order[0]])
  {
    ContainsSelf(t.order[0]);
  }

  /** getSpecs answers null exactly when the name is stored neither as it
    * is nor normalized, and no key overlaps the normalized name. */
  lemma LookupNone(t: Table, name: string)
    requires Indexed(t)
    ensures Lookup(t, name).None? <==>
      Upper(name) !in t.entries && Normalize(name) !in t.entries
      && forall k :: k in t.order ==> !Overlaps(k, Normalize(name))
  {
    if Lookup(t, name).None? {
      forall k | k in t.order ensures !Overlaps(k, Normalize(name)) {
        var j :| 0 <= j < |t.order| && t.order[j] == k;
      }
    }
  }

  /** Whatever getSpecs answers is the value of some stored key. */
  lemma LookupStored(t: Table, name: string)
    requires Indexed(t)
    ensures Lookup(t, name).Some? ==> exists k :: k in t.entries && t.entries[k] == Lookup(t, name).value
  {
    if Lookup(t, name).Some? && Upper(name) !in t.entries && Normalize(name) !in t.entries {
      var i := FirstOverlap(t.order, Normalize(name)).value;
      assert t.order[i] in t.entries;
    }
  }

  // ---------------------------------------------------------------------
  // generateComponentContext
  // ---------------------------------------------------------------------

  const ContextHeader := "\n## COMPONENT SPECIFICATIONS (From Datasheets)\n\n"
  const NoInfo := "\U{26A0}\U{FE0F}  No datasheet information available for this component.\n\n"

  /** A template-literal rendering of an optional value: `undefined` when
    * absent. */
  function Show(v: Option<string>): string
  {
    match v
    case None => "undefined"
    case Some(s) => s
  }

  /** `if (value) context += caption + value + '\n'`. */
  function Field(caption: string, v: Option<string>): string
  {
    if v.Some? && |v.value| > 0 then caption + v.value + "\n" else ""
  }

  function Bullets(xs: seq<string>): string
  {
    if |xs| == 0 then "" else Bullets(xs[..|xs| - 1]) + "  - " + xs[|xs| - 1] + "\n"
  }

  function VoltagePart(v: Option<Voltage>): string
  {
    match v
    case None => ""
    case Some(volt) =>
      "**Operating Voltage:**\n" + Field("  - Min: ", volt.min) + Field("  - Typ: ", volt.typ)
      + Field("  - Max: ", volt.max)
  }

  function CurrentPart(c: Option<Current>): string
  {
    match c
    case None => ""
    case Some(cur) => "**Current:**\n" + Field("  - Operating: ", cur.operating) + Field("  - Sleep: ", cur.sleep)
  }

  function TemperaturePart(t: Option<Temperature>): string
  {
    match t
    case None => ""
    case Some(temp) => "**Operating Temperature:** " + Show(temp.min) + " to " + Show(temp.max) + "\n"
  }

  function ListPart(title: string, xs: seq<string>): string
  {
    if |xs| > 0 then title + Bullets(xs) else ""
  }

  /** The middle of a section: every line between the heading block and
    * the closing rule. */
  function SectionBody(specs: ComponentSpecs): string
  {
    Field("**Manufacturer:** ", specs.manufacturer) + Field("**Description:** ", specs.description)
    + VoltagePart(specs.voltage) + CurrentPart(specs.current)
    + Field("**Package:** ", specs.package) + Field("**Pin Count:** ", specs.pins)
    + TemperaturePart(specs.temperature)
    + ListPart("**Key Features:**\n", specs.features) + ListPart("**Typical Applications:**\n", specs.applications)
  }

  const Heading := "### "
  const Rule := "---\n\n"

  /** What lies between a section's `### ` and its closing rule. */
  function SectionMiddle(name: string, found: Option<ComponentSpecs>): string
  {
    match found
    case Some(specs) =>
      OrDefault(specs.component, name) + "\n"
      + "**Source:** " + OrDefault(specs.sourceUrl, "Downloaded datasheet") + "\n"
      + "**Extracted:** " + OrDefault(specs.extractedAt, "Recently") + "\n\n"
      + SectionBody(specs) + "\n"
    case None => name + "\n" + NoInfo
  }

  /** The section of one requested name. */
  function Section(name: string, found: Option<ComponentSpecs>): string
  {
    Heading + SectionMiddle(name, found) + Rule
  }

  /** Each section starts with a `### ` heading (the requested name when
    * nothing was found) and ends with the `---` rule. */
  lemma SectionShape(name: string, found: Option<ComponentSpecs>)
    ensures StartsWith(Section(name, found), "### ")
    ensures EndsWith(Section(name, found), "---\n\n")
    ensures found.None? ==> StartsWith(Section(name, found), "### " + name + "\n")
  {
    var m := SectionMiddle(name, found);
    assert Heading + m + Rule == Heading + (m + Rule);
    StartsWithConcat(Heading, m + Rule);
    EndsWithConcat(Heading + m, Rule);
    if found.None? {
      assert Heading + m + Rule == (Heading + name + "\n") + (NoInfo + Rule);
      StartsWithConcat(Heading + name + "\n", NoInfo + Rule);
    }
  }

  /** All sections, in the order of the requested names. */
  function Sections(t: Table, names: seq<string>): string
    requires Indexed(t)
  {
    if |names| == 0 then "" else Sections(t, names[..|names| - 1]) + Section(names[|names| - 1], Lookup(t, names[|names| - 1]))
  }

  lemma SectionsSnoc(t: Table, names: seq<string>, i: nat)
    requires Indexed(t) && i < |names|
    ensures Sections(t, names[..i + 1]) == Sections(t, names[..i]) + Section(names[i], Lookup(t, names[i]))
  {
    assert names[..i + 1][..i] == names[..i];
  }

  lemma ConcatAssoc(a: string, b: string, c: string)
    ensures a + (b + c) == (a + b) + c
  {
  }

  /** The loader, with its Map. */
  class ComponentKnowledgeLoader {
    var knowledge: Table

    ghost predicate Valid()
      reads this
    {
      Indexed(knowledge)
    }

    constructor ()
      ensures Valid() && knowledge == Table([], map[])
    {
      knowledge := Table([], map[]);
    }

    /** loadAll: nothing changes when the directory is missing; otherwise
      * each spec file, in listing order, is parsed and set under its key.
      * Returns the Map's size. */
    method LoadAll(dirExists: bool, listing: seq<string>, parse: string -> Option<ComponentSpecs>) returns (size: nat)
      requires Valid()
      modifies this
      ensures Valid()
      ensures !dirExists ==> knowledge == old(knowledge)
      ensures dirExists ==> knowledge == Load(old(knowledge), SpecFiles(listing), parse)
      ensures size == |knowledge.order|
    {
      if !dirExists {
        return |knowledge.order|;
      }
      var specFiles := SpecFiles(listing);
      var i := 0;
      while i < |specFiles|
        invariant 0 <= i <= |specFiles|
        invariant Indexed(knowledge)
        invariant knowledge == Load(old(knowledge), specFiles[..i], parse)
      {
        assert specFiles[..i + 1][..i] == specFiles[..i];
        var file := specFiles[i];
        var specs := parse(file);
        if specs.Some? {
          var componentName := OrDefault(specs.value.component, ReplaceFirst(file, SpecsSuffix, ""));
          SetIndexed(knowledge, Upper(componentName), specs.value);
          knowledge := Set(knowledge, Upper(componentName), specs.value);
        }
        i := i + 1;
      }
      assert specFiles[..i] == specFiles;
      size := |knowledge.order|;
    }

    /** getSpecs, with its loop over the Map's entries. */
    method GetSpecs(componentName: string) returns (specs: Option<ComponentSpecs>)
      requires Valid()
      ensures specs == Lookup(knowledge, componentName)
    {
      var normalized := Normalize(componentName);
      var exact := Upper(componentName);
      if exact in knowledge.entries {
        return Some(knowledge.entries[exact]);
      }
      if normalized in knowledge.entries {
        return Some(knowledge.entries[normalized]);
      }
      var i := 0;
      while i < |knowledge.order|
        invariant 0 <= i <= |knowledge.order|
        invariant forall j :: 0 <= j < i ==> !Overlaps(knowledge.order[j], normalized)
      {
        var name := knowledge.order[i];
        if Contains(name, normalized) || Contains(normalized, name) {
          FirstOverlapAt(knowledge.order, normalized, i);
          return Some(knowledge.entries[name]);
        }
        i := i + 1;
      }
      FirstOverlapNone(knowledge.order, normalized);
      return None;
    }

    /** getComponentList: the keys in insertion order. */
    function ComponentList(): (r: seq<string>)
      reads this
      requires Valid()
      ensures NoDups(r) && forall k :: k in r <==> k in knowledge.entries
    {
      knowledge.order
    }

    /** generateComponentContext: the header, then one section per
      * requested name, in order. */
    method GenerateComponentContext(componentNames: seq<string>) returns (context: string)
      requires Valid()
      ensures context == ContextHeader + Sections(knowledge, componentNames)
    {
      context := ContextHeader;
      var i := 0;
      while i < |componentNames|
        invariant 0 <= i <= |componentNames|
        invariant context == ContextHeader + Sections(knowledge, componentNames[..i])
      {
        var name := componentNames[i];
        var specs := GetSpecs(name);
        var section := Section(name, specs);
        SectionsSnoc(knowledge, componentNames, i);
        ConcatAssoc(ContextHeader, Sections(knowledge, componentNames[..i]), section);
        context := context + section;
        i := i + 1;
      }
      assert componentNames[..i] == componentNames;
    }
  }

  lemma FirstOverlapAt(order: seq<string>, normalized: string, i: nat)
    requires i < |order| && Overlaps(order[i], normalized)
    requires forall j :: 0 <= j < i ==> !Overlaps(order[j], normalized)
    ensures FirstOverlap(order, normalized) == Some(i)
  {
    var r := FirstOverlap(order, normalized);
    assert r.Some? && r.value <= i;
  }

  lemma FirstOverlapNone(order: seq<string>, normalized: string)
    requires forall j :: 0 <= j < |order| ==> !Overlaps(order[j], normalized)
    ensures FirstOverlap(order, normalized) == None
  {
  }
}

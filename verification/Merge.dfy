// Merging two subtitle documents and splitting one: styles are pruned and renamed, and every
// reference that meant a style before still means it.
module Merge {
  import opened Wrappers

  // A style's name, and everything else about it.
  datatype Style = Style(name: string, body: nat)

  // An override tag: a reset to a named style, an animated transform of further tags, or any
  // tag that names no style.
  datatype Override = Reset(name: Option<string>) | Transform(tags: seq<Override>) | Plain(tag: nat)

  datatype Item = Tag(ov: Override) | Drawing(shape: nat) | Raw(text: string)

  // rest stands for the times, margins and the like.
  datatype Event = Event(style: string, text: seq<Item>, rest: nat)

  datatype Doc = Doc(styles: seq<Style>, events: seq<Event>)

  // ---- What a name means --------------------------------------------------------------------

  // The first style of that name.
  function Resolve(styles: seq<Style>, name: string): Option<Style>
  {
    if styles == [] then None
    else if styles[0].name == name then Some(styles[0])
    else Resolve(styles[1..], name)
  }

  lemma {:induction false} ResolveFinds(styles: seq<Style>, name: string)
    ensures Resolve(styles, name).Some? ==>
                Resolve(styles, name).value in styles && Resolve(styles, name).value.name == name
    ensures Resolve(styles, name).None? <==> forall s :: s in styles ==> s.name != name
  {
    if styles != [] {
      ResolveFinds(styles[1..], name);
      assert forall s :: s in styles <==> s == styles[0] || s in styles[1..];
    }
  }

  lemma {:induction false} ResolveAppend(a: seq<Style>, b: seq<Style>, name: string)
    ensures Resolve(a + b, name) == if Resolve(a, name).Some? then Resolve(a, name) else Resolve(b, name)
  {
    if a == [] {
      assert a + b == b;
    } else {
      ResolveAppend(a[1..], b, name);
      assert (a + b)[1..] == a[1..] + b;
    }
  }

  // The named references of an override, however deep.
  ghost function NamesIn(ov: Override): set<string>
  {
    match ov
    case Reset(name) => if name.Some? && name.value != "" then {name.value} else {}
    case Transform(tags) => set i, n | 0 <= i < |tags| && n in NamesIn(tags[i]) :: n
    case Plain(_) => {}
  }

  ghost function NamesInItem(item: Item): set<string>
  {
    if item.Tag? then NamesIn(item.ov) else {}
  }

  ghost function NamesInText(text: seq<Item>): set<string>
  {
    set i, n | 0 <= i < |text| && n in NamesInItem(text[i]) :: n
  }

  ghost function NamesInEvent(e: Event): set<string>
  {
    (if e.style != "" then {e.style} else {}) + NamesInText(e.text)
  }

  ghost function UsedNames(events: seq<Event>): set<string>
  {
    set i, n | 0 <= i < |events| && n in NamesInEvent(events[i]) :: n
  }

  ghost function NamesOf(styles: seq<Style>): set<string>
  {
    set s | s in styles :: s.name
  }

  ghost function BaseNames(events: seq<Event>): set<string>
  {
    set e | e in events && e.style != "" :: e.style
  }

  // style_names
  ghost function StyleNames(d: Doc): set<string>
  {
    NamesOf(d.styles) + BaseNames(d.events)
  }

  // Two overrides of the same shape whose style names are related one by one.
  ghost predicate Related(ov: Override, ov': Override, rel: (string, string) -> bool)
  {
    match (ov, ov')
    case (Reset(Some(n)), Reset(Some(n'))) => rel(n, n')
    case (Transform(tags), Transform(tags')) => |tags'| == |tags| && forall i :: 0 <= i < |tags| ==>
        Related(tags[i], tags'[i], rel)
    case _ => ov' == ov
  }

  ghost predicate RelatedItems(item: Item, item': Item, rel: (string, string) -> bool)
  {
    if item.Tag? && item'.Tag? then Related(item.ov, item'.ov, rel) else item' == item
  }

  ghost predicate RelatedEvents(e: Event, e': Event, rel: (string, string) -> bool)
  {
    && rel(e.style, e'.style) && e'.rest == e.rest && |e'.text| == |e.text|
    && forall i :: 0 <= i < |e.text| ==> RelatedItems(e.text[i], e'.text[i], rel)
  }

  // ---- Pruning ------------------------------------------------------------------------------

  ghost function Pruned(styles: seq<Style>, used: set<string>): seq<Style>
  {
    if styles == [] then []
    else
      var n := |styles| - 1;
      Pruned(styles[..n], used) + if styles[n].name in used then [styles[n]] else []
  }

  // Dropping unused styles leaves every used name its meaning, and no other style.
  lemma {:induction false} PrunedResolves(styles: seq<Style>, used: set<string>, name: string)
    ensures Resolve(Pruned(styles, used), name) == if name in used then Resolve(styles, name) else None
  {
    if styles != [] {
      var n := |styles| - 1;
      PrunedResolves(styles[..n], used, name);
      ResolveAppend(styles[..n], [styles[n]], name);
      assert styles == styles[..n] + [styles[n]];
      var kept := if styles[n].name in used then [styles[n]] else [];
      ResolveAppend(Pruned(styles[..n], used), kept, name);
    }
  }

  // ---- Renaming -----------------------------------------------------------------------------

  function NewName(mapping: map<string, string>, name: string): string
  {
    if name in mapping then mapping[name] else name
  }

  ghost function RenamedOverride(ov: Override, mapping: map<string, string>): Override
  {
    match ov
    case Reset(name) => if name.Some? then Reset(Some(NewName(mapping, name.value))) else ov
    case Transform(tags) => Transform(seq(|tags|, i requires 0 <= i < |tags| => RenamedOverride(tags[i], mapping)))
    case Plain(_) => ov
  }

  ghost function RenamedItem(item: Item, mapping: map<string, string>): Item
  {
    if item.Tag? then Tag(RenamedOverride(item.ov, mapping)) else item
  }

  ghost function RenamedEvent(e: Event, mapping: map<string, string>): Event
  {
    Event(NewName(mapping, e.style), seq(|e.text|, i requires 0 <= i < |e.text| => RenamedItem(e.text[i], mapping)),
          e.rest)
  }

  ghost function RenamedStyles(styles: seq<Style>, mapping: map<string, string>): seq<Style>
  {
    seq(|styles|, i requires 0 <= i < |styles| => styles[i].(name := NewName(mapping, styles[i].name)))
  }

  ghost function RenamedEvents(events: seq<Event>, mapping: map<string, string>): seq<Event>
  {
    seq(|events|, i requires 0 <= i < |events| => RenamedEvent(events[i], mapping))
  }

  // A renamed override relates as its names do.
  lemma {:induction false} RenamedRelates(ov: Override, mapping: map<string, string>, rel: (string, string) -> bool)
    requires rel("", NewName(mapping, ""))
    requires forall n :: n in NamesIn(ov) ==> rel(n, NewName(mapping, n))
    ensures Related(ov, RenamedOverride(ov, mapping), rel)
  {
    if ov.Transform? {
      forall i | 0 <= i < |ov.tags| ensures Related(ov.tags[i], RenamedOverride(ov.tags[i], mapping), rel) {
        assert forall n :: n in NamesIn(ov.tags[i]) ==> n in NamesIn(ov);
        RenamedRelates(ov.tags[i], mapping, rel);
      }
    }
  }

  lemma RenamedEventRelates(e: Event, mapping: map<string, string>, rel: (string, string) -> bool)
    requires rel("", NewName(mapping, ""))
    requires forall n :: n in NamesInEvent(e) ==> rel(n, NewName(mapping, n))
    ensures RelatedEvents(e, RenamedEvent(e, mapping), rel)
  {
    var e' := RenamedEvent(e, mapping);
    assert e.style != "" ==> e.style in NamesInEvent(e);
    forall i | 0 <= i < |e.text| ensures RelatedItems(e.text[i], e'.text[i], rel) {
      assert forall n :: n in NamesInItem(e.text[i]) ==> n in NamesInText(e.text);
      if e.text[i].Tag? { RenamedRelates(e.text[i].ov, mapping, rel); }
    }
  }

  lemma {:induction false} NothingRenamed(ov: Override)
    ensures RenamedOverride(ov, map[]) == ov
  {
    if ov.Transform? {
      forall i | 0 <= i < |ov.tags| ensures RenamedOverride(ov.tags[i], map[]) == ov.tags[i] {
        NothingRenamed(ov.tags[i]);
      }
    }
  }

  lemma EventUnrenamed(e: Event)
    ensures RenamedEvent(e, map[]) == e
  {
    forall i | 0 <= i < |e.text| ensures RenamedItem(e.text[i], map[]) == e.text[i] {
      if e.text[i].Tag? { NothingRenamed(e.text[i].ov); }
    }
  }

  // One generated name for every style name that has to go.
  ghost function MappingOf(styles: seq<Style>, names: set<string>, gen: nat -> string): map<string, string>
  {
    if styles == [] then map[]
    else
      var n := |styles| - 1;
      var rest := MappingOf(styles[..n], names, gen);
      var name := styles[n].name;
      if name in names && name !in rest then rest[name := gen(n)] else rest
  }

  ghost predicate Generates(gen: nat -> string, taken: set<string>)
  {
    && (forall i: nat :: gen(i) !in taken)
    && (forall i: nat, j: nat :: gen(i) == gen(j) ==> i == j)
  }

  lemma {:induction false} MappingKeys(styles: seq<Style>, names: set<string>, gen: nat -> string)
    ensures MappingOf(styles, names, gen).Keys == NamesOf(styles) * names
    ensures forall k :: k in MappingOf(styles, names, gen) ==> exists i: nat ::
                i < |styles| && MappingOf(styles, names, gen)[k] == gen(i)
  {
    if styles != [] {
      var n := |styles| - 1;
      MappingKeys(styles[..n], names, gen);
      assert forall s :: s in styles <==> s in styles[..n] || s == styles[n];
      var rest, all := MappingOf(styles[..n], names, gen), MappingOf(styles, names, gen);
      assert NamesOf(styles) == NamesOf(styles[..n]) + {styles[n].name};
      forall k | k in all ensures exists i: nat :: i < |styles| && all[k] == gen(i) {
        if k in rest && all[k] == rest[k] {
          var i: nat :| i < n && rest[k] == gen(i);
        }
      }
    }
  }

  lemma {:induction false} MappingInjective(styles: seq<Style>, names: set<string>, gen: nat -> string,
                                            taken: set<string>)
    requires Generates(gen, taken)
    ensures var m := MappingOf(styles, names, gen); forall j, k :: j in m && k in m && m[j] == m[k] ==> j == k
  {
    if styles != [] {
      var n := |styles| - 1;
      MappingInjective(styles[..n], names, gen, taken);
      MappingKeys(styles[..n], names, gen);
    }
  }

  // A renaming that maps to names nobody else uses, and never two to one.
  ghost predicate Clean(mapping: map<string, string>, taken: set<string>)
  {
    && (forall k :: k in mapping ==> mapping[k] !in taken)
    && (forall j, k :: j in mapping && k in mapping && mapping[j] == mapping[k] ==> j == k)
  }

  lemma NewNameInjective(mapping: map<string, string>, taken: set<string>, m: string, n: string)
    requires Clean(mapping, taken) && m in taken && n in taken
    ensures NewName(mapping, m) == NewName(mapping, n) <==> m == n
  {
  }

  // Renamed styles resolve renamed names as the old ones did.
  lemma {:induction false} RenamedResolves(styles: seq<Style>, mapping: map<string, string>, taken: set<string>,
                                           name: string)
    requires Clean(mapping, taken) && NamesOf(styles) <= taken && name in taken
    ensures var was, now := Resolve(styles, name), Resolve(RenamedStyles(styles, mapping), NewName(mapping, name));
            if was.None? then now.None? else now == Some(Style(NewName(mapping, name), was.value.body))
  {
    if styles != [] {
      assert styles[0].name in NamesOf(styles);
      assert forall s :: s in styles[1..] ==> s in styles;
      RenamedResolves(styles[1..], mapping, taken, name);
      assert RenamedStyles(styles, mapping)[1..] == RenamedStyles(styles[1..], mapping);
      NewNameInjective(mapping, taken, styles[0].name, name);
    }
  }

  // ---- Merging ------------------------------------------------------------------------------

  ghost function PrunedDoc(d: Doc): Doc
  {
    d.(styles := Pruned(d.styles, UsedNames(d.events)))
  }

  ghost function RenamedDoc(d: Doc, mapping: map<string, string>): Doc
  {
    Doc(RenamedStyles(d.styles, mapping), RenamedEvents(d.events, mapping))
  }

  // The renaming of the second document's styles.
  ghost function MergeMapping(primary: Doc, secondary: Doc, gen: nat -> string): map<string, string>
  {
    MappingOf(PrunedDoc(secondary).styles, StyleNames(PrunedDoc(primary)) * StyleNames(PrunedDoc(secondary)), gen)
  }

  ghost function Merged(primary: Doc, secondary: Doc, gen: nat -> string): Doc
  {
    var second := RenamedDoc(PrunedDoc(secondary), MergeMapping(primary, secondary, gen));
    Doc(PrunedDoc(primary).styles + second.styles, primary.events + second.events)
  }

  // Names a document without its unused styles still has.
  ghost predicate KeepsName(d: Doc, name: string)
  {
    || (name in UsedNames(d.events) && exists s :: s in d.styles && s.name == name)
    || (name != "" && exists e :: e in d.events && e.style == name)
  }

  // Renamed are exactly the used styles of the second document whose name the first one keeps.
  lemma OnlyOverlapRenamed(primary: Doc, secondary: Doc, gen: nat -> string, name: string)
    ensures name in MergeMapping(primary, secondary, gen)
            <==> name in UsedNames(secondary.events) && (exists s :: s in secondary.styles && s.name == name)
                 && KeepsName(primary, name)
  {
    MappingKeys(PrunedDoc(secondary).styles, StyleNames(PrunedDoc(primary)) * StyleNames(PrunedDoc(secondary)), gen);
    PrunedStyled(primary);
    PrunedStyled(secondary);
  }

  // Every name of a document.
  ghost function Taken(d: Doc): set<string>
  {
    NamesOf(d.styles) + UsedNames(d.events)
  }

  lemma PrunedNames(d: Doc)
    ensures NamesOf(PrunedDoc(d).styles) == NamesOf(d.styles) * UsedNames(d.events)
  {
    var used := UsedNames(d.events);
    forall name ensures name in NamesOf(PrunedDoc(d).styles) <==> name in NamesOf(d.styles) && name in used {
      PrunedResolves(d.styles, used, name);
      ResolveFinds(d.styles, name);
      ResolveFinds(PrunedDoc(d).styles, name);
    }
  }

  lemma MergeMappingClean(primary: Doc, secondary: Doc, gen: nat -> string)
    requires Generates(gen, Taken(primary) + Taken(secondary))
    ensures Clean(MergeMapping(primary, secondary, gen), Taken(primary) + Taken(secondary))
    ensures var overlap := StyleNames(PrunedDoc(primary)) * StyleNames(PrunedDoc(secondary));
            MergeMapping(primary, secondary, gen).Keys == NamesOf(PrunedDoc(secondary).styles) * overlap
  {
    var names := StyleNames(PrunedDoc(primary)) * StyleNames(PrunedDoc(secondary));
    MappingKeys(PrunedDoc(secondary).styles, names, gen);
    MappingInjective(PrunedDoc(secondary).styles, names, gen, Taken(primary) + Taken(secondary));
  }

  // What the merged styles make of a primary name.
  lemma PrimaryNameKept(primary: Doc, secondary: Doc, gen: nat -> string, name: string)
    requires Generates(gen, Taken(primary) + Taken(secondary)) && name in UsedNames(primary.events)
    ensures var merged := Resolve(Merged(primary, secondary, gen).styles, name);
            && (Resolve(primary.styles, name).Some? ==> merged == Resolve(primary.styles, name))
            && (name in BaseNames(primary.events) ==> merged == Resolve(primary.styles, name))
  {
    var mapping := MergeMapping(primary, secondary, gen);
    var second := PrunedDoc(secondary).styles;
    var taken := Taken(primary) + Taken(secondary);
    MergeMappingClean(primary, secondary, gen);
    PrunedResolves(primary.styles, UsedNames(primary.events), name);
    PrunedNames(secondary);
    ResolveAppend(PrunedDoc(primary).styles, RenamedStyles(second, mapping), name);
    if name in BaseNames(primary.events) {
      ResolveFinds(RenamedStyles(second, mapping), name);
      forall i | 0 <= i < |second| ensures RenamedStyles(second, mapping)[i].name != name {
        assert second[i].name in NamesOf(second);
      }
    }
  }

  // What the merged styles make of a secondary name.
  lemma SecondaryNameKept(primary: Doc, secondary: Doc, gen: nat -> string, name: string)
    requires Generates(gen, Taken(primary) + Taken(secondary)) && name in UsedNames(secondary.events)
    requires Resolve(secondary.styles, name).Some?
    ensures var now := NewName(MergeMapping(primary, secondary, gen), name);
            Resolve(Merged(primary, secondary, gen).styles, now)
                == Some(Style(now, Resolve(secondary.styles, name).value.body))
  {
    var mapping := MergeMapping(primary, secondary, gen);
    var first, second := PrunedDoc(primary).styles, PrunedDoc(secondary).styles;
    var taken := Taken(primary) + Taken(secondary);
    var now := NewName(mapping, name);
    MergeMappingClean(primary, secondary, gen);
    PrunedNames(primary);
    PrunedNames(secondary);
    PrunedResolves(secondary.styles, UsedNames(secondary.events), name);
    ResolveFinds(secondary.styles, name);
    assert name in NamesOf(second);
    RenamedResolves(second, mapping, taken, name);
    ResolveAppend(first, RenamedStyles(second, mapping), now);
    ResolveFinds(first, now);
    forall s | s in first ensures s.name != now {
      assert s.name in NamesOf(first);
    }
  }

  // A name keeps its meaning between two style lists: what it meant, it means.
  ghost predicate MeansSame(styles: seq<Style>, styles': seq<Style>, n: string, n': string)
  {
    n != "" && Resolve(styles, n).Some? ==>
        Resolve(styles', n').Some? && Resolve(styles', n').value.body == Resolve(styles, n).value.body
  }

  // Merging keeps the meaning of every reference, base or nested, of both documents; the
  // primary events are not changed at all, and what dangled as a primary base style dangles.
  lemma MergeKeepsMeaning(primary: Doc, secondary: Doc, gen: nat -> string)
    requires Generates(gen, Taken(primary) + Taken(secondary))
    ensures var merged := Merged(primary, secondary, gen);
            && |merged.events| == |primary.events| + |secondary.events|
            && (forall i :: 0 <= i < |primary.events| ==>
                  && merged.events[i] == primary.events[i]
                  && RelatedEvents(primary.events[i], merged.events[i],
                                   (n, n') => MeansSame(primary.styles, merged.styles, n, n'))
                  && (primary.events[i].style != "" ==>
                        Resolve(merged.styles, primary.events[i].style)
                            == Resolve(primary.styles, primary.events[i].style)))
            && (forall i :: 0 <= i < |secondary.events| ==>
                  RelatedEvents(secondary.events[i], merged.events[|primary.events| + i],
                                (n, n') => MeansSame(secondary.styles, merged.styles, n, n')))
  {
    var merged := Merged(primary, secondary, gen);
    forall i | 0 <= i < |primary.events|
      ensures RelatedEvents(primary.events[i], merged.events[i],
                            (n, n') => MeansSame(primary.styles, merged.styles, n, n'))
              && (primary.events[i].style != "" ==>
                    Resolve(merged.styles, primary.events[i].style) == Resolve(primary.styles, primary.events[i].style))
    {
      PrimaryEventKept(primary, secondary, gen, i);
    }
    forall i | 0 <= i < |secondary.events|
      ensures RelatedEvents(secondary.events[i], merged.events[|primary.events| + i],
                            (n, n') => MeansSame(secondary.styles, merged.styles, n, n'))
    {
      SecondaryEventKept(primary, secondary, gen, i);
    }
  }

  lemma PrimaryEventKept(primary: Doc, secondary: Doc, gen: nat -> string, i: nat)
    requires Generates(gen, Taken(primary) + Taken(secondary)) && i < |primary.events|
    ensures var e, styles := primary.events[i], Merged(primary, secondary, gen).styles;
            && RelatedEvents(e, e, (n, n') => MeansSame(primary.styles, styles, n, n'))
            && (e.style != "" ==> Resolve(styles, e.style) == Resolve(primary.styles, e.style))
  {
    var e, styles := primary.events[i], Merged(primary, secondary, gen).styles;
    var rel := (n, n') => MeansSame(primary.styles, styles, n, n');
    forall n | n in NamesInEvent(e) ensures rel(n, NewName(map[], n)) {
      assert n in UsedNames(primary.events);
      PrimaryNameKept(primary, secondary, gen, n);
    }
    RenamedEventRelates(e, map[], rel);
    EventUnrenamed(e);
    if e.style != "" {
      assert e.style in NamesInEvent(e) && e.style in UsedNames(primary.events) && e.style in BaseNames(primary.events);
      PrimaryNameKept(primary, secondary, gen, e.style);
    }
  }

  lemma SecondaryEventKept(primary: Doc, secondary: Doc, gen: nat -> string, i: nat)
    requires Generates(gen, Taken(primary) + Taken(secondary)) && i < |secondary.events|
    ensures var e, styles := secondary.events[i], Merged(primary, secondary, gen).styles;
            RelatedEvents(e, RenamedEvent(e, MergeMapping(primary, secondary, gen)),
                          (n, n') => MeansSame(secondary.styles, styles, n, n'))
  {
    var e, styles := secondary.events[i], Merged(primary, secondary, gen).styles;
    var mapping := MergeMapping(primary, secondary, gen);
    var rel := (n, n') => MeansSame(secondary.styles, styles, n, n');
    forall n | n in NamesInEvent(e) ensures rel(n, NewName(mapping, n)) {
      assert n in UsedNames(secondary.events);
      if Resolve(secondary.styles, n).Some? { SecondaryNameKept(primary, secondary, gen, n); }
    }
    RenamedEventRelates(e, mapping, rel);
  }

  // A primary reference inside a line that dangled goes on dangling exactly when the second
  // document has no style of that name in use; otherwise it is captured.
  lemma NestedDanglingExactly(primary: Doc, secondary: Doc, gen: nat -> string, name: string)
    requires Generates(gen, Taken(primary) + Taken(secondary))
    requires name in UsedNames(primary.events) && Resolve(primary.styles, name).None?
             && name !in BaseNames(primary.events)
    ensures Resolve(Merged(primary, secondary, gen).styles, name).None?
            <==> !(name in NamesOf(secondary.styles) && name in UsedNames(secondary.events))
  {
    var mapping := MergeMapping(primary, secondary, gen);
    var second := PrunedDoc(secondary).styles;
    MergeMappingClean(primary, secondary, gen);
    PrunedNames(primary);
    PrunedNames(secondary);
    PrunedResolves(primary.styles, UsedNames(primary.events), name);
    ResolveFinds(primary.styles, name);
    ResolveAppend(PrunedDoc(primary).styles, RenamedStyles(second, mapping), name);
    ResolveFinds(RenamedStyles(second, mapping), name);
    assert name !in mapping;
    if name in NamesOf(second) {
      var i :| 0 <= i < |second| && second[i].name == name;
      assert RenamedStyles(second, mapping)[i].name == name;
    } else {
      forall i | 0 <= i < |second| ensures RenamedStyles(second, mapping)[i].name != name {
        assert second[i].name in NamesOf(second);
      }
    }
  }

  // A reference of the second document that dangled keeps its name, and goes on dangling exactly
  // when the first document has no style of that name in use; otherwise it is captured.
  lemma SecondaryDanglingExactly(primary: Doc, secondary: Doc, gen: nat -> string, name: string)
    requires Generates(gen, Taken(primary) + Taken(secondary))
    requires name in UsedNames(secondary.events) && Resolve(secondary.styles, name).None?
    ensures var now := NewName(MergeMapping(primary, secondary, gen), name);
            && now == name
            && Resolve(Merged(primary, secondary, gen).styles, now)
               == if name in UsedNames(primary.events) then Resolve(primary.styles, name) else None
  {
    var mapping := MergeMapping(primary, secondary, gen);
    var first, second := PrunedDoc(primary).styles, PrunedDoc(secondary).styles;
    MergeMappingClean(primary, secondary, gen);
    PrunedNames(secondary);
    ResolveFinds(secondary.styles, name);
    NotAStyle(secondary.styles, name);
    assert name !in mapping;
    PrunedResolves(secondary.styles, UsedNames(secondary.events), name);
    RenamedResolves(second, mapping, Taken(primary) + Taken(secondary), name);
    PrunedResolves(primary.styles, UsedNames(primary.events), name);
    ResolveAppend(first, RenamedStyles(second, mapping), name);
  }

  lemma NotAStyle(styles: seq<Style>, name: string)
    requires Resolve(styles, name).None?
    ensures name !in NamesOf(styles)
  {
    ResolveFinds(styles, name);
  }

  function Numbered(n: nat): (name: string)
    ensures |name| == 3 + n && name[0] == 'p'
  {
    if n == 0 then "pn-" else Numbered(n - 1) + "x"
  }

  // A line that resets to a style its own document lacks takes the other document's style.
  lemma DanglingResetCaptured()
    ensures var line := Event("A", [Tag(Reset(Some("B")))], 0);
            var primary, secondary := Doc([Style("A", 1)], [line]), Doc([Style("B", 2)], [Event("B", [], 0)]);
            && Resolve(primary.styles, "B").None?
            && Resolve(Merged(primary, secondary, Numbered).styles, "B").Some?
  {
    var line := Event("A", [Tag(Reset(Some("B")))], 0);
    var primary, secondary := Doc([Style("A", 1)], [line]), Doc([Style("B", 2)], [Event("B", [], 0)]);
    assert "B" in NamesInItem(line.text[0]);
    assert "B" in NamesInEvent(primary.events[0]) && "B" in NamesInEvent(secondary.events[0]);
    assert secondary.styles[0].name in NamesOf(secondary.styles);
    assert primary.styles[1..] == [];
    OneLetterNames(primary, secondary);
    NestedDanglingExactly(primary, secondary, Numbered, "B");
  }

  // A line on a style its own document lacks takes the first document's style.
  lemma DanglingSecondaryCaptured()
    ensures var primary, secondary := Doc([Style("A", 1)], [Event("A", [], 0)]), Doc([], [Event("A", [], 0)]);
            && Resolve(secondary.styles, "A").None?
            && Resolve(Merged(primary, secondary, Numbered).styles, "A") == Some(Style("A", 1))
  {
    var primary, secondary := Doc([Style("A", 1)], [Event("A", [], 0)]), Doc([], [Event("A", [], 0)]);
    OnlyStyleUsed(primary.events);
    SecondaryDanglingExactly(primary, secondary, Numbered, "A");
  }

  lemma OnlyStyleUsed(events: seq<Event>)
    requires events == [Event("A", [], 0)]
    ensures UsedNames(events) == {"A"}
  {
    assert "A" in NamesInEvent(events[0]);
    forall n | n in UsedNames(events) ensures n == "A" {
      assert n in NamesInEvent(events[0]);
    }
  }

  lemma OneLetterNames(primary: Doc, secondary: Doc)
    requires primary == Doc([Style("A", 1)], [Event("A", [Tag(Reset(Some("B")))], 0)])
    requires secondary == Doc([Style("B", 2)], [Event("B", [], 0)])
    ensures Generates(Numbered, Taken(primary) + Taken(secondary))
    ensures "B" !in BaseNames(primary.events)
  {
    assert primary.events[0].style == "A" && forall e :: e in primary.events ==> e == primary.events[0];
    forall n | n in Taken(primary) + Taken(secondary) ensures |n| == 1 {
      if n in UsedNames(primary.events) {
        assert n in NamesInEvent(primary.events[0]);
        if n != "A" {
          assert n in NamesInItem(primary.events[0].text[0]);
          assert n in NamesIn(Reset(Some("B")));
        }
      } else if n in UsedNames(secondary.events) {
        assert n in NamesInEvent(secondary.events[0]);
      }
    }
  }

  // ---- Splitting ----------------------------------------------------------------------------

  function Select(events: seq<Event>, wanted: string -> bool): seq<Event>
  {
    if events == [] then []
    else
      var n := |events| - 1;
      Select(events[..n], wanted) + if wanted(events[n].style) then [events[n]] else []
  }

  function Not(p: string -> bool): string -> bool
  {
    name => !p(name)
  }

  // The two lists are the whole, dealt out in order.
  ghost predicate Interleave(a: seq<Event>, b: seq<Event>, whole: seq<Event>)
  {
    if whole == [] then a == [] && b == []
    else
      var n := |whole| - 1;
      || (a != [] && a[|a| - 1] == whole[n] && Interleave(a[..|a| - 1], b, whole[..n]))
      || (b != [] && b[|b| - 1] == whole[n] && Interleave(a, b[..|b| - 1], whole[..n]))
  }

  lemma {:induction false} SelectionsInterleave(events: seq<Event>, isSign: string -> bool)
    ensures Interleave(Select(events, Not(isSign)), Select(events, isSign), events)
  {
    if events != [] {
      var n := |events| - 1;
      SelectionsInterleave(events[..n], isSign);
      var kept, signs := Select(events[..n], Not(isSign)), Select(events[..n], isSign);
      if isSign(events[n].style) {
        assert (signs + [events[n]])[..|signs|] == signs;
        assert Select(events, Not(isSign)) == kept;
        assert Select(events, isSign) == signs + [events[n]];
      } else {
        assert (kept + [events[n]])[..|kept|] == kept;
        assert Select(events, Not(isSign)) == kept + [events[n]];
        assert Select(events, isSign) == signs;
      }
    }
  }

  // Exactly the events of a wanted style.
  lemma {:induction false} SelectExactly(events: seq<Event>, wanted: string -> bool, e: Event)
    ensures e in Select(events, wanted) <==> e in events && wanted(e.style)
  {
    if events != [] {
      var n := |events| - 1;
      SelectExactly(events[..n], wanted, e);
      assert e in events <==> e in events[..n] || e == events[n];
    }
  }

  ghost predicate AllOf(events: seq<Event>, wanted: string -> bool)
  {
    forall e :: e in events ==> wanted(e.style)
  }

  // The signs are signs, nothing else is, and there are none to take when no event is a sign.
  lemma SignsAreSigns(events: seq<Event>, isSign: string -> bool)
    ensures AllOf(Select(events, isSign), isSign) && AllOf(Select(events, Not(isSign)), Not(isSign))
    ensures Select(events, isSign) == [] <==> forall e :: e in events ==> !isSign(e.style)
  {
    forall e ensures e in Select(events, isSign) <==> e in events && isSign(e.style) {
      SelectExactly(events, isSign, e);
    }
    forall e ensures e in Select(events, Not(isSign)) <==> e in events && !isSign(e.style) {
      SelectExactly(events, Not(isSign), e);
    }
    if Select(events, isSign) != [] {
      assert Select(events, isSign)[0] in Select(events, isSign);
    }
  }

  // A part holds exactly the styles of the whole that its own events name.
  ghost predicate StyledBy(part: seq<Style>, whole: seq<Style>, events: seq<Event>)
  {
    forall s :: s in part <==> s in whole && s.name in UsedNames(events)
  }

  lemma {:induction false} PrunedExactly(styles: seq<Style>, used: set<string>, s: Style)
    ensures s in Pruned(styles, used) <==> s in styles && s.name in used
  {
    if styles != [] {
      var n := |styles| - 1;
      PrunedExactly(styles[..n], used, s);
      assert s in styles <==> s in styles[..n] || s == styles[n];
    }
  }

  lemma PrunedStyled(d: Doc)
    ensures StyledBy(PrunedDoc(d).styles, d.styles, d.events)
  {
    forall s ensures s in PrunedDoc(d).styles <==> s in d.styles && s.name in UsedNames(d.events) {
      PrunedExactly(d.styles, UsedNames(d.events), s);
    }
  }

  // How the document left behind and the document taken out relate to the whole.
  ghost predicate SplitFrom(whole: Doc, left: Doc, signs: Option<Doc>, isSign: string -> bool)
  {
    && AllOf(left.events, Not(isSign))
    && (signs.None? <==> forall e :: e in whole.events ==> !isSign(e.style))
    && (signs.None? ==> left == whole)
    && (signs.Some? ==>
          && AllOf(signs.value.events, isSign) && Interleave(left.events, signs.value.events, whole.events)
          && StyledBy(left.styles, whole.styles, left.events)
          && StyledBy(signs.value.styles, whole.styles, signs.value.events))
  }

  lemma {:induction false} AllSelected(events: seq<Event>, wanted: string -> bool)
    requires AllOf(events, wanted)
    ensures Select(events, wanted) == events
  {
    if events != [] {
      var n := |events| - 1;
      assert events[n] in events;
      AllSelected(events[..n], wanted);
      assert events == events[..n] + [events[n]];
    }
  }

  lemma SplitIsSplit(d: Doc, isSign: string -> bool)
    ensures var signs := if Select(d.events, isSign) == [] then None else Some(Signs(d, isSign));
            SplitFrom(d, Spoken(d, isSign), signs, isSign)
  {
    SignsAreSigns(d.events, isSign);
    SelectionsInterleave(d.events, isSign);
    if Select(d.events, isSign) == [] {
      AllSelected(d.events, Not(isSign));
    } else {
      PrunedStyled(Doc(d.styles, Select(d.events, isSign)));
      PrunedStyled(Doc(d.styles, Select(d.events, Not(isSign))));
    }
  }

  // The document without its signs, and the signs, each with the styles it uses.
  ghost function Spoken(d: Doc, isSign: string -> bool): Doc
  {
    var kept := Select(d.events, Not(isSign));
    if Select(d.events, isSign) == [] then Doc(d.styles, kept) else PrunedDoc(Doc(d.styles, kept))
  }

  ghost function Signs(d: Doc, isSign: string -> bool): Doc
  {
    PrunedDoc(Doc(d.styles, Select(d.events, isSign)))
  }

  // Splitting deals the events out in order, and every name either part uses means in it what it
  // meant in the whole, or dangles as it did.
  lemma SplitKeepsMeaning(d: Doc, isSign: string -> bool, name: string)
    ensures Interleave(Spoken(d, isSign).events, Signs(d, isSign).events, d.events)
    ensures name in UsedNames(Spoken(d, isSign).events) ==>
                Resolve(Spoken(d, isSign).styles, name) == Resolve(d.styles, name)
    ensures name in UsedNames(Signs(d, isSign).events) ==>
                Resolve(Signs(d, isSign).styles, name) == Resolve(d.styles, name)
  {
    SelectionsInterleave(d.events, isSign);
    PrunedResolves(d.styles, UsedNames(Select(d.events, isSign)), name);
    PrunedResolves(d.styles, UsedNames(Select(d.events, Not(isSign))), name);
  }

  // ---- Collecting names ---------------------------------------------------------------------

  lemma TagsNext(tags: seq<Override>, k: nat)
    requires k < |tags|
    ensures NamesIn(Transform(tags[..k + 1])) == NamesIn(Transform(tags[..k])) + NamesIn(tags[k])
  {
    var more, less := Transform(tags[..k + 1]), Transform(tags[..k]);
    forall n ensures n in NamesIn(more) <==> n in NamesIn(less) || n in NamesIn(tags[k]) {
      if n in NamesIn(less) {
        var i :| 0 <= i < k && n in NamesIn(less.tags[i]);
        assert more.tags[i] == less.tags[i];
      }
      if n in NamesIn(tags[k]) { assert more.tags[k] == tags[k]; }
    }
  }

  lemma TextNext(text: seq<Item>, k: nat)
    requires k < |text|
    ensures NamesInText(text[..k + 1]) == NamesInText(text[..k]) + NamesInItem(text[k])
  {
    forall n | n in NamesInText(text[..k]) ensures n in NamesInText(text[..k + 1]) {
      var i :| 0 <= i < k && n in NamesInItem(text[..k][i]);
      assert text[..k + 1][i] == text[..k][i];
    }
    assert text[..k + 1][k] == text[k];
  }

  lemma UsedNext(events: seq<Event>, k: nat)
    requires k < |events|
    ensures UsedNames(events[..k + 1]) == UsedNames(events[..k]) + NamesInEvent(events[k])
  {
    forall n | n in UsedNames(events[..k]) ensures n in UsedNames(events[..k + 1]) {
      var i :| 0 <= i < k && n in NamesInEvent(events[..k][i]);
      assert events[..k + 1][i] == events[..k][i];
    }
    assert events[..k + 1][k] == events[k];
  }

  // collect_style_names_from_override
  method CollectNames(ov: Override) returns (names: set<string>)
    ensures names == NamesIn(ov)
    decreases ov
  {
    names := {};
    match ov
    case Reset(name) =>
      if name.Some? && name.value != "" {
        names := {name.value};
      }
    case Plain(_) =>
    case Transform(tags) =>
      var k := 0;
      assert NamesIn(Transform(tags[..0])) == {};
      while k < |tags|
        invariant k <= |tags| && names == NamesIn(Transform(tags[..k]))
      {
        var more := CollectNames(tags[k]);
        TagsNext(tags, k);
        names := names + more;
        k := k + 1;
      }
      assert tags[..k] == tags;
  }

  method CollectFromText(text: seq<Item>) returns (names: set<string>)
    ensures names == NamesInText(text)
  {
    names := {};
    var k := 0;
    while k < |text|
      invariant k <= |text| && names == NamesInText(text[..k])
    {
      TextNext(text, k);
      if text[k].Tag? {
        var more := CollectNames(text[k].ov);
        names := names + more;
      }
      k := k + 1;
    }
    assert text[..k] == text;
  }

  // used_style_names_for_events
  method CollectUsed(events: seq<Event>) returns (used: set<string>)
    ensures used == UsedNames(events)
  {
    used := {};
    var k := 0;
    while k < |events|
      invariant k <= |events| && used == UsedNames(events[..k])
    {
      UsedNext(events, k);
      if events[k].style != "" {
        used := used + {events[k].style};
      }
      var more := CollectFromText(events[k].text);
      used := used + more;
      k := k + 1;
    }
    assert events[..k] == events;
  }

  // rename_style_refs_in_override
  method RenameRefs(ov: Override, mapping: map<string, string>) returns (renamed: Override)
    ensures renamed == RenamedOverride(ov, mapping)
    decreases ov
  {
    renamed := ov;
    match ov
    case Reset(name) =>
      if name.Some? && name.value in mapping {
        renamed := Reset(Some(mapping[name.value]));
      }
    case Plain(_) =>
    case Transform(tags) =>
      var done: seq<Override> := [];
      while |done| < |tags|
        invariant |done| <= |tags|
        invariant forall i :: 0 <= i < |done| ==> done[i] == RenamedOverride(tags[i], mapping)
      {
        var tag := RenameRefs(tags[|done|], mapping);
        done := done + [tag];
      }
      renamed := Transform(done);
      assert done == RenamedOverride(ov, mapping).tags;
  }

  method RenameText(text: seq<Item>, mapping: map<string, string>) returns (done: seq<Item>)
    ensures |done| == |text| && forall i :: 0 <= i < |text| ==> done[i] == RenamedItem(text[i], mapping)
  {
    done := [];
    while |done| < |text|
      invariant |done| <= |text|
      invariant forall i :: 0 <= i < |done| ==> done[i] == RenamedItem(text[i], mapping)
    {
      var item := text[|done|];
      if item.Tag? {
        var ov := RenameRefs(item.ov, mapping);
        item := Tag(ov);
      }
      done := done + [item];
    }
  }

  class Subtitles {
    var styles: seq<Style>
    var events: seq<Event>

    function Contents(): Doc
      reads this
    {
      Doc(styles, events)
    }

    constructor (d: Doc)
      ensures Contents() == d
    {
      styles, events := d.styles, d.events;
    }

    // prune_unused_styles
    method PruneUnusedStyles()
      modifies `styles
      ensures Contents() == PrunedDoc(old(Contents()))
    {
      var used := CollectUsed(events);
      RetainStyles(used);
    }

    method RetainStyles(used: set<string>)
      modifies `styles
      ensures styles == Pruned(old(styles), used)
    {
      var kept: seq<Style> := [];
      var k := 0;
      while k < |styles|
        invariant k <= |styles| && styles == old(styles) && kept == Pruned(styles[..k], used)
      {
        assert styles[..k + 1][..k] == styles[..k];
        if styles[k].name in used {
          kept := kept + [styles[k]];
        }
        k := k + 1;
      }
      assert styles[..k] == styles;
      styles := kept;
    }

    // style_names
    method CollectStyleNames() returns (names: set<string>)
      ensures names == StyleNames(Contents())
    {
      names := set s | s in styles :: s.name;
      var k := 0;
      while k < |events|
        invariant k <= |events| && names == NamesOf(styles) + BaseNames(events[..k])
      {
        assert events[..k + 1] == events[..k] + [events[k]];
        assert BaseNames(events[..k + 1]) == BaseNames(events[..k]) + if events[k].style != "" then {events[k].style}
                   else {};
        if events[k].style != "" {
          names := names + {events[k].style};
        }
        k := k + 1;
      }
      assert events[..k] == events;
    }

    method ChooseNames(names: set<string>, gen: nat -> string) returns (mapping: map<string, string>)
      ensures mapping == MappingOf(styles, names, gen)
    {
      mapping := map[];
      var k: nat := 0;
      while k < |styles|
        invariant k <= |styles| && mapping == MappingOf(styles[..k], names, gen)
      {
        assert styles[..k + 1][..k] == styles[..k];
        var name := styles[k].name;
        if name in names && name !in mapping {
          mapping := mapping[name := gen(k)];
        }
        k := k + 1;
      }
      assert styles[..k] == styles;
    }

    // rename_overlapping_styles
    method RenameOverlappingStyles(names: set<string>, gen: nat -> string)
      modifies this
      ensures Contents() == RenamedDoc(old(Contents()), MappingOf(old(styles), names, gen))
    {
      var mapping := ChooseNames(names, gen);
      RenameEvents(mapping);
      var k := 0;
      while k < |styles|
        invariant k <= |styles| == |old(styles)| && events == RenamedEvents(old(events), mapping)
        invariant forall i :: 0 <= i < k ==> styles[i] == RenamedStyles(old(styles), mapping)[i]
        invariant forall i :: k <= i < |styles| ==> styles[i] == old(styles)[i]
      {
        if styles[k].name in mapping {
          styles := styles[k := styles[k].(name := mapping[styles[k].name])];
        }
        k := k + 1;
      }
    }

    method RenameEvents(mapping: map<string, string>)
      modifies `events
      ensures events == RenamedEvents(old(events), mapping)
    {
      var k := 0;
      while k < |events|
        invariant k <= |events| == |old(events)|
        invariant forall i :: 0 <= i < k ==> events[i] == RenamedEvent(old(events)[i], mapping)
        invariant forall i :: k <= i < |events| ==> events[i] == old(events)[i]
      {
        var e := events[k];
        var text := RenameText(e.text, mapping);
        var renamed := Event(if e.style in mapping then mapping[e.style] else e.style, text, e.rest);
        assert renamed.text == RenamedEvent(e, mapping).text;
        events := events[k := renamed];
        k := k + 1;
      }
    }

    // append_sub
    method AppendSub(src: Subtitles)
      modifies this
      ensures styles == old(styles) + old(src.styles) && events == old(events) + old(src.events)
    {
      styles, events := styles + src.styles, events + src.events;
    }

    // split_sign_events: the signs leave with the styles they use, if there are any.
    method SplitSignEvents(isSign: string -> bool) returns (signs: Option<Subtitles>)
      modifies this
      ensures Contents() == Spoken(old(Contents()), isSign)
      ensures signs.None? <==> Select(old(events), isSign) == []
      ensures signs.Some? ==> signs.value.Contents() == Signs(old(Contents()), isSign)
      ensures SplitFrom(old(Contents()), Contents(), if signs.None? then None else Some(signs.value.Contents()), isSign)
    {
      SplitIsSplit(Contents(), isSign);
      var kept, taken := DealEvents(isSign);
      events := kept;
      if taken == [] { return None; }
      var signUsed := CollectUsed(taken);
      var spokenUsed := CollectUsed(events);
      var signStyles, spokenStyles := DealStyles(signUsed, spokenUsed);
      styles := spokenStyles;
      var out := new Subtitles(Doc(signStyles, taken));
      signs := Some(out);
    }

    method DealEvents(isSign: string -> bool) returns (kept: seq<Event>, signs: seq<Event>)
      ensures kept == Select(events, Not(isSign)) && signs == Select(events, isSign)
    {
      kept, signs := [], [];
      var k := 0;
      while k < |events|
        invariant k <= |events|
        invariant kept == Select(events[..k], Not(isSign)) && signs == Select(events[..k], isSign)
      {
        assert events[..k + 1][..k] == events[..k];
        if isSign(events[k].style) {
          signs := signs + [events[k]];
        } else {
          kept := kept + [events[k]];
        }
        k := k + 1;
      }
      assert events[..k] == events;
    }

    // A style used on both sides goes to both.
    method DealStyles(signUsed: set<string>, spokenUsed: set<string>)
        returns (signStyles: seq<Style>, spokenStyles: seq<Style>)
      ensures signStyles == Pruned(styles, signUsed) && spokenStyles == Pruned(styles, spokenUsed)
    {
      signStyles, spokenStyles := [], [];
      var k := 0;
      while k < |styles|
        invariant k <= |styles|
        invariant signStyles == Pruned(styles[..k], signUsed) && spokenStyles == Pruned(styles[..k], spokenUsed)
      {
        assert styles[..k + 1][..k] == styles[..k];
        var style := styles[k];
        if style.name in signUsed {
          if style.name in spokenUsed {
            spokenStyles := spokenStyles + [style];
          }
          signStyles := signStyles + [style];
        } else if style.name in spokenUsed {
          spokenStyles := spokenStyles + [style];
        }
        k := k + 1;
      }
      assert styles[..k] == styles;
    }
  }

  // prepare_merge_styles
  method PrepareMergeStyles(primary: Subtitles, secondary: Subtitles, gen: nat -> string)
    requires primary != secondary
    modifies primary, secondary
    ensures primary.Contents() == PrunedDoc(old(primary.Contents()))
    ensures secondary.Contents()
            == RenamedDoc(PrunedDoc(old(secondary.Contents())),
                          MergeMapping(old(primary.Contents()), old(secondary.Contents()), gen))
  {
    primary.PruneUnusedStyles();
    secondary.PruneUnusedStyles();
    var first := primary.CollectStyleNames();
    var second := secondary.CollectStyleNames();
    var overlap := first * second;
    if overlap != {} {
      secondary.RenameOverlappingStyles(overlap, gen);
    } else {
      NothingToRename(secondary.Contents(), gen);
    }
  }

  lemma {:induction false} NoMapping(styles: seq<Style>, gen: nat -> string)
    ensures MappingOf(styles, {}, gen) == map[]
  {
    if styles != [] { NoMapping(styles[..|styles| - 1], gen); }
  }

  lemma NothingToRename(d: Doc, gen: nat -> string)
    ensures RenamedDoc(d, MappingOf(d.styles, {}, gen)) == d
  {
    NoMapping(d.styles, gen);
    forall i | 0 <= i < |d.events| ensures RenamedEvent(d.events[i], map[]) == d.events[i] {
      EventUnrenamed(d.events[i]);
    }
    assert RenamedEvents(d.events, map[]) == d.events;
    assert RenamedStyles(d.styles, map[]) == d.styles;
  }

  // Preparing and appending is the merge.
  method MergeInto(primary: Subtitles, secondary: Subtitles, gen: nat -> string)
    requires primary != secondary
    modifies primary, secondary
    ensures primary.Contents() == Merged(old(primary.Contents()), old(secondary.Contents()), gen)
  {
    PrepareMergeStyles(primary, secondary, gen);
    primary.AppendSub(secondary);
  }
}

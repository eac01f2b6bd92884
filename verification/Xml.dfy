/** The XML scanners of the AWS driver (crates/nclav-driver/src/aws.rs, `xml_text`, `xml_all_texts`). */
module Xml {
  import opened Prelude

  /** What the reader reports; text that cannot be unescaped carries no value. */
  datatype Event = Start(name: string) | End | Text(text: Option<string>) | Other

  /** An element tree; self-closing elements, comments and the like are events to pass over. */
  datatype Node = Element(name: string, children: seq<Node>) | TextNode(text: Option<string>) | Ignored

  function EventsOf(nodes: seq<Node>): seq<Event> {
    if nodes == [] then []
    else
      (match nodes[0]
       case Element(name, children) => [Start(name)] + (EventsOf(children) + [End])
       case TextNode(text) => [Text(text)]
       case Ignored => [Other])
      + EventsOf(nodes[1..])
  }

  // ----- the scanners -----

  /** What `xml_text` answers from a given point on. */
  function TextFrom(events: seq<Event>, tag: string, inTag: bool, depth: nat): Option<string>
    decreases |events|
  {
    if events == [] then None
    else
      var rest := events[1..];
      match events[0]
      case Start(name) =>
        if !inTag && name == tag then TextFrom(rest, tag, true, 0)
        else TextFrom(rest, tag, inTag, if inTag then depth + 1 else depth)
      case End =>
        if inTag && depth == 0 then None
        else TextFrom(rest, tag, inTag, if inTag then depth - 1 else depth)
      case Text(text) => if inTag && depth == 0 then text else TextFrom(rest, tag, inTag, depth)
      case Other => TextFrom(rest, tag, inTag, depth)
  }

  /** What `xml_all_texts` collects from a given point on; depth 0 is outside the tag. */
  function TextsFrom(events: seq<Event>, tag: string, depth: nat): seq<string>
    decreases |events|
  {
    if events == [] then []
    else
      var rest := events[1..];
      match events[0]
      case Start(name) => TextsFrom(rest, tag, if depth == 0 && name != tag then 0 else depth + 1)
      case End => TextsFrom(rest, tag, if depth > 0 then depth - 1 else 0)
      case Text(text) => (if depth == 1 && text.Some? then [text.value] else []) + TextsFrom(rest, tag, depth)
      case Other => TextsFrom(rest, tag, depth)
  }

  method XmlText(events: seq<Event>, tag: string) returns (r: Option<string>)
    ensures r == TextFrom(events, tag, false, 0)
    ensures forall doc :: events == EventsOf(doc) ==> r == FirstText(doc, tag)
  {
    forall doc | events == EventsOf(doc) ensures TextFrom(events, tag, false, 0) == FirstText(doc, tag) {
      XmlTextMeaning(doc, tag);
    }
    var inTag := false;
    var depth: nat := 0;
    for i := 0 to |events|
      invariant TextFrom(events[i..], tag, inTag, depth) == TextFrom(events, tag, false, 0)
    {
      assert events[i..][0] == events[i] && events[i..][1..] == events[i + 1..];
      match events[i] {
        case Start(name) =>
          if !inTag && name == tag {
            inTag, depth := true, 0;
          } else if inTag {
            depth := depth + 1;
          }
        case End =>
          if inTag {
            if depth == 0 {
              return None;
            }
            depth := depth - 1;
          }
        case Text(text) =>
          if inTag && depth == 0 {
            return text;
          }
        case Other =>
      }
    }
    return None;
  }

  method XmlAllTexts(events: seq<Event>, tag: string) returns (r: seq<string>)
    ensures r == TextsFrom(events, tag, 0)
    ensures forall doc :: events == EventsOf(doc) ==> r == OutermostTexts(doc, tag)
  {
    forall doc | events == EventsOf(doc) ensures TextsFrom(events, tag, 0) == OutermostTexts(doc, tag) {
      XmlAllTextsMeaning(doc, tag);
    }
    r := [];
    var depth: nat := 0;
    for i := 0 to |events|
      invariant r + TextsFrom(events[i..], tag, depth) == TextsFrom(events, tag, 0)
    {
      assert events[i..][0] == events[i] && events[i..][1..] == events[i + 1..];
      match events[i] {
        case Start(name) =>
          if depth == 0 && name == tag {
            depth := 1;
          } else if depth > 0 {
            depth := depth + 1;
          }
        case End =>
          if depth > 0 {
            depth := depth - 1;
          }
        case Text(text) =>
          if depth == 1 {
            if text.Some? {
              r := r + [text.value];
            }
          }
        case Other =>
      }
    }
  }

  // ----- the same, on trees -----

  /** The first text directly inside, if there is one and it can be unescaped. */
  function DirectText(children: seq<Node>): Option<string> {
    if children == [] then None
    else if children[0].TextNode? then children[0].text
    else DirectText(children[1..])
  }

  /** The first element of that name in document order. */
  function FirstElement(nodes: seq<Node>, tag: string): Option<Node> {
    if nodes == [] then None
    else if !nodes[0].Element? then FirstElement(nodes[1..], tag)
    else if nodes[0].name == tag then Some(nodes[0])
    else
      var inside := FirstElement(nodes[0].children, tag);
      if inside.Some? then inside else FirstElement(nodes[1..], tag)
  }

  lemma {:induction false} FirstElementIsElement(nodes: seq<Node>, tag: string)
    ensures FirstElement(nodes, tag).Some? ==> FirstElement(nodes, tag).value.Element?
  {
    if nodes != [] {
      if nodes[0].Element? && nodes[0].name != tag {
        FirstElementIsElement(nodes[0].children, tag);
      }
      FirstElementIsElement(nodes[1..], tag);
    }
  }

  function FirstText(doc: seq<Node>, tag: string): Option<string> {
    match FirstElement(doc, tag)
    case Some(Element(_, children)) => DirectText(children)
    case _ => None
  }

  function DirectTexts(children: seq<Node>): seq<string> {
    if children == [] then []
    else
      (if children[0].TextNode? && children[0].text.Some? then [children[0].text.value] else [])
      + DirectTexts(children[1..])
  }

  /** The direct texts of the elements of that name that are not inside another one. */
  function OutermostTexts(nodes: seq<Node>, tag: string): seq<string> {
    if nodes == [] then []
    else
      (if !nodes[0].Element? then []
       else if nodes[0].name == tag then DirectTexts(nodes[0].children)
       else OutermostTexts(nodes[0].children, tag))
      + OutermostTexts(nodes[1..], tag)
  }

  // ----- agreement -----

  /** The events of an element, up to its end and the events that follow it. */
  lemma {:induction false} ElementEvents(nodes: seq<Node>, rest: seq<Event>)
    requires nodes != [] && nodes[0].Element?
    ensures var more := EventsOf(nodes[1..]) + rest;
            var all := EventsOf(nodes) + rest;
            && all != [] && all[0] == Start(nodes[0].name)
            && all[1..] == EventsOf(nodes[0].children) + ([End] + more)
            && ([End] + more)[1..] == more
  {
    var inner, tail := EventsOf(nodes[0].children), EventsOf(nodes[1..]);
    Rebracket(nodes[0].name, inner, tail, rest);
    assert EventsOf(nodes) == [Start(nodes[0].name)] + (inner + [End]) + tail;
  }

  lemma {:induction false} Rebracket(name: string, inner: seq<Event>, tail: seq<Event>, rest: seq<Event>)
    ensures ([Start(name)] + (inner + [End]) + tail) + rest == [Start(name)] + (inner + ([End] + (tail + rest)))
    ensures ([Start(name)] + (inner + ([End] + (tail + rest))))[1..] == inner + ([End] + (tail + rest))
    ensures ([End] + (tail + rest))[1..] == tail + rest
  {
    Assoc([Start(name)] + (inner + [End]), tail, rest);
    Assoc([Start(name)], inner + [End], tail + rest);
    Assoc(inner, [End], tail + rest);
  }

  /** Everything below the direct level is passed over. */
  lemma {:induction false} PassOver(nodes: seq<Node>, rest: seq<Event>, tag: string, depth: nat)
    requires depth > 0
    ensures TextFrom(EventsOf(nodes) + rest, tag, true, depth) == TextFrom(rest, tag, true, depth)
  {
    if nodes == [] {
      assert EventsOf(nodes) + rest == rest;
    } else {
      var more := EventsOf(nodes[1..]) + rest;
      if nodes[0].Element? {
        ElementEvents(nodes, rest);
        PassOver(nodes[0].children, [End] + more, tag, depth + 1);
      } else {
        assert (EventsOf(nodes) + rest)[1..] == more;
      }
      PassOver(nodes[1..], rest, tag, depth);
    }
  }

  lemma {:induction false} InsideTag(children: seq<Node>, rest: seq<Event>, tag: string)
    ensures TextFrom(EventsOf(children) + ([End] + rest), tag, true, 0) == DirectText(children)
  {
    var after := [End] + rest;
    if children == [] {
      assert EventsOf(children) + after == after;
    } else {
      var more := EventsOf(children[1..]) + after;
      if children[0].Element? {
        ElementEvents(children, after);
        PassOver(children[0].children, [End] + more, tag, 1);
      } else {
        assert (EventsOf(children) + after)[1..] == more;
      }
      InsideTag(children[1..], rest, tag);
    }
  }

  lemma {:induction false} OutsideTag(nodes: seq<Node>, rest: seq<Event>, tag: string)
    ensures TextFrom(EventsOf(nodes) + rest, tag, false, 0) ==
            if FirstElement(nodes, tag).Some? then FirstText(nodes, tag) else TextFrom(rest, tag, false, 0)
  {
    FirstElementIsElement(nodes, tag);
    if nodes == [] {
      assert EventsOf(nodes) + rest == rest;
    } else {
      var more := EventsOf(nodes[1..]) + rest;
      if nodes[0].Element? {
        ElementEvents(nodes, rest);
        if nodes[0].name == tag {
          InsideTag(nodes[0].children, more, tag);
        } else {
          OutsideTag(nodes[0].children, [End] + more, tag);
        }
      } else {
        assert (EventsOf(nodes) + rest)[1..] == more;
      }
      OutsideTag(nodes[1..], rest, tag);
    }
  }

  /** `xml_text`: the first direct text of the first element of that name. */
  lemma {:induction false} XmlTextMeaning(doc: seq<Node>, tag: string)
    ensures TextFrom(EventsOf(doc), tag, false, 0) == FirstText(doc, tag)
  {
    OutsideTag(doc, [], tag);
    assert EventsOf(doc) + [] == EventsOf(doc);
  }

  lemma {:induction false} PassOverAll(nodes: seq<Node>, rest: seq<Event>, tag: string, depth: nat)
    requires depth > 1
    ensures TextsFrom(EventsOf(nodes) + rest, tag, depth) == TextsFrom(rest, tag, depth)
  {
    if nodes == [] {
      assert EventsOf(nodes) + rest == rest;
    } else {
      var more := EventsOf(nodes[1..]) + rest;
      if nodes[0].Element? {
        ElementEvents(nodes, rest);
        PassOverAll(nodes[0].children, [End] + more, tag, depth + 1);
      } else {
        assert (EventsOf(nodes) + rest)[1..] == more;
      }
      PassOverAll(nodes[1..], rest, tag, depth);
    }
  }

  lemma {:induction false} InsideAll(children: seq<Node>, rest: seq<Event>, tag: string)
    ensures TextsFrom(EventsOf(children) + ([End] + rest), tag, 1) == DirectTexts(children) + TextsFrom(rest, tag, 0)
  {
    var after := [End] + rest;
    if children == [] {
      assert EventsOf(children) + after == after && after[1..] == rest;
    } else {
      var more := EventsOf(children[1..]) + after;
      if children[0].Element? {
        ElementEvents(children, after);
        PassOverAll(children[0].children, [End] + more, tag, 2);
      } else {
        assert (EventsOf(children) + after)[1..] == more;
      }
      InsideAll(children[1..], rest, tag);
    }
  }

  lemma {:induction false} OutsideAll(nodes: seq<Node>, rest: seq<Event>, tag: string)
    ensures TextsFrom(EventsOf(nodes) + rest, tag, 0) == OutermostTexts(nodes, tag) + TextsFrom(rest, tag, 0)
    decreases nodes, 1
  {
    hide TextsFrom, EventsOf, DirectTexts, OutermostTexts;
    if nodes == [] {
      NoEvents(rest);
      NoOutermost(tag);
    } else {
      OutsideAll(nodes[1..], rest, tag);
      OutermostCons(nodes, tag);
      if nodes[0].Element? {
        OutsideElement(nodes, rest, tag);
        var inside := nodes[0].children;
        var here := if nodes[0].name == tag then DirectTexts(inside) else OutermostTexts(inside, tag);
        Assoc(here, OutermostTexts(nodes[1..], tag), TextsFrom(rest, tag, 0));
      } else {
        OutsideOther(nodes, rest, tag);
      }
    }
  }

  lemma {:induction false} NoOutermost(tag: string)
    ensures OutermostTexts([], tag) == []
  {
  }

  lemma {:induction false} OutermostCons(nodes: seq<Node>, tag: string)
    requires nodes != []
    ensures nodes[0].Element? ==>
              OutermostTexts(nodes, tag) ==
              (if nodes[0].name == tag then DirectTexts(nodes[0].children) else OutermostTexts(nodes[0].children, tag))
              + OutermostTexts(nodes[1..], tag)
    ensures !nodes[0].Element? ==> OutermostTexts(nodes, tag) == OutermostTexts(nodes[1..], tag)
  {
  }

  lemma {:induction false} NoEvents(rest: seq<Event>)
    ensures EventsOf([]) + rest == rest
  {
  }

  lemma {:induction false} OtherEvents(nodes: seq<Node>, rest: seq<Event>)
    requires nodes != [] && !nodes[0].Element?
    ensures var all := EventsOf(nodes) + rest;
            && all != [] && (all[0].Text? || all[0].Other?)
            && all[1..] == EventsOf(nodes[1..]) + rest
  {
    var first := if nodes[0].TextNode? then Text(nodes[0].text) else Other;
    assert EventsOf(nodes) == [first] + EventsOf(nodes[1..]);
    Assoc([first], EventsOf(nodes[1..]), rest);
  }

  lemma {:induction false} OutsideOther(nodes: seq<Node>, rest: seq<Event>, tag: string)
    requires nodes != [] && !nodes[0].Element?
    ensures TextsFrom(EventsOf(nodes) + rest, tag, 0) == TextsFrom(EventsOf(nodes[1..]) + rest, tag, 0)
  {
    hide EventsOf;
    OtherEvents(nodes, rest);
  }

  lemma {:induction false} OutsideElement(nodes: seq<Node>, rest: seq<Event>, tag: string)
    requires nodes != [] && nodes[0].Element?
    ensures TextsFrom(EventsOf(nodes) + rest, tag, 0) ==
            (if nodes[0].name == tag then DirectTexts(nodes[0].children) else OutermostTexts(nodes[0].children, tag))
            + TextsFrom(EventsOf(nodes[1..]) + rest, tag, 0)
    decreases nodes, 0
  {
    var more := EventsOf(nodes[1..]) + rest;
    ElementEvents(nodes, rest);
    if nodes[0].name == tag {
      InsideAll(nodes[0].children, more, tag);
    } else {
      OutsideAll(nodes[0].children, [End] + more, tag);
    }
  }

  /** `xml_all_texts`: the direct texts of every outermost element of that name, in order. */
  lemma {:induction false} XmlAllTextsMeaning(doc: seq<Node>, tag: string)
    ensures TextsFrom(EventsOf(doc), tag, 0) == OutermostTexts(doc, tag)
  {
    OutsideAll(doc, [], tag);
    assert EventsOf(doc) + [] == EventsOf(doc);
  }

  // ----- nested elements of the same name -----

  /** The direct texts of every element of that name, nested or not, in document order. */
  function EveryText(nodes: seq<Node>, tag: string, parentIs: bool): seq<string> {
    if nodes == [] then []
    else
      (match nodes[0]
       case Element(name, children) => EveryText(children, tag, name == tag)
       case TextNode(text) => if parentIs && text.Some? then [text.value] else []
       case Ignored => [])
      + EveryText(nodes[1..], tag, parentIs)
  }

  /** Those of them whose element lies inside another element of that name. */
  function NestedText(nodes: seq<Node>, tag: string, parentIs: bool, above: bool): seq<string> {
    if nodes == [] then []
    else
      (match nodes[0]
       case Element(name, children) => NestedText(children, tag, name == tag, above || parentIs)
       case TextNode(text) => if parentIs && above && text.Some? then [text.value] else []
       case Ignored => [])
      + NestedText(nodes[1..], tag, parentIs, above)
  }

  lemma {:induction false} AllNested(nodes: seq<Node>, tag: string, parentIs: bool)
    ensures EveryText(nodes, tag, parentIs) == NestedText(nodes, tag, parentIs, true)
  {
    if nodes != [] {
      if nodes[0].Element? {
        AllNested(nodes[0].children, tag, nodes[0].name == tag);
      }
      AllNested(nodes[1..], tag, parentIs);
    }
  }

  lemma {:induction false} DirectOrNested(children: seq<Node>, tag: string)
    ensures |EveryText(children, tag, true)| == |DirectTexts(children)| + |NestedText(children, tag, true, false)|
    ensures NestedText(children, tag, true, false) == [] ==> EveryText(children, tag, true) == DirectTexts(children)
  {
    if children != [] {
      if children[0].Element? {
        AllNested(children[0].children, tag, children[0].name == tag);
      }
      DirectOrNested(children[1..], tag);
    }
  }

  lemma {:induction false} OutermostOrNested(nodes: seq<Node>, tag: string)
    ensures |EveryText(nodes, tag, false)| == |OutermostTexts(nodes, tag)| + |NestedText(nodes, tag, false, false)|
    ensures NestedText(nodes, tag, false, false) == [] ==> EveryText(nodes, tag, false) == OutermostTexts(nodes, tag)
  {
    if nodes != [] {
      if nodes[0].Element? {
        if nodes[0].name == tag {
          DirectOrNested(nodes[0].children, tag);
        } else {
          OutermostOrNested(nodes[0].children, tag);
        }
      }
      OutermostOrNested(nodes[1..], tag);
    }
  }

  /** The collector finds the texts of every element of that name exactly when none sits inside another. */
  lemma {:induction false} EveryTextIffNotNested(doc: seq<Node>, tag: string)
    ensures TextsFrom(EventsOf(doc), tag, 0) == EveryText(doc, tag, false) <==> NestedText(doc, tag, false, false) == []
  {
    XmlAllTextsMeaning(doc, tag);
    OutermostOrNested(doc, tag);
  }

  /** A role list inside a role list: the inner entry is missed. */
  lemma {:induction false} NestedIsMissed()
    ensures var doc := [Element("member", [Element("member", [TextNode(Some("x"))])])];
            TextsFrom(EventsOf(doc), "member", 0) == [] && EveryText(doc, "member", false) == ["x"]
  {
    var leaf := [TextNode(Some("x"))];
    var inner := [Element("member", leaf)];
    var doc := [Element("member", inner)];
    XmlAllTextsMeaning(doc, "member");
    assert DirectTexts(inner) == [] + DirectTexts([]);
    assert EveryText(leaf, "member", true) == ["x"] + EveryText([], "member", true);
    assert EveryText(inner, "member", true) == EveryText(leaf, "member", true) + EveryText([], "member", true);
    assert EveryText(doc, "member", false) == EveryText(inner, "member", true) + EveryText([], "member", false);
  }
}

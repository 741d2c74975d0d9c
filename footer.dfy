/** The page footer: in-page quick links, and the legal links row with a
    bullet between neighbouring links. */
module Footer {
  import opened Strings
  import opened Dom

  datatype Link = Link(name: string, href: string)

  const QuickLinks: seq<Link> := [
    Link("Server Rules", "#rules"),
    Link("How to Join", "#join"),
    Link("Server Info", "#info"),
    Link("Contact Us", "#contact")
  ]

  const LegalLinks: seq<Link> := [
    Link("Terms of Service", "/terms"),
    Link("Privacy Policy", "/privacy"),
    Link("Community Guidelines", "/guidelines"),
    Link("DMCA Policy", "/dmca")
  ]

  /** `handleNavClick`: a smooth scroll to the start of the target when `href`
      is `#id` and the element exists, and nothing else; the footer keeps no
      state, so the frame is the document's scroll log alone. */
  method HandleNavClick(doc: Document, href: string)
    modifies doc`scrolls
    ensures doc.scrolls == old(doc.scrolls) +
      (if doc.AnchorTarget(href).Some? then [Scroll(doc.AnchorTarget(href).value, BlockStart)] else [])
    ensures !StartsWith(href, "#") ==> doc.scrolls == old(doc.scrolls)
  {
    if StartsWith(href, "#") {
      var element := doc.QuerySelector(href);
      if element.Some? {
        doc.ScrollIntoView(element.value, BlockStart);
      }
    }
  }

  /** On the page as composed, no quick link leads anywhere: `#rules`,
      `#join`, `#info` and `#contact` name no element, so a click on any of
      them scrolls nothing. */
  lemma QuickLinksTargets(doc: Document)
    requires doc.ids == PageSectionIds
    ensures forall i :: 0 <= i < |QuickLinks| ==>
      StartsWith(QuickLinks[i].href, "#") && doc.AnchorTarget(QuickLinks[i].href).None?
  {
    forall i | 0 <= i < |QuickLinks|
      ensures StartsWith(QuickLinks[i].href, "#") && doc.AnchorTarget(QuickLinks[i].href).None?
    {
      var href := QuickLinks[i].href;
      assert href[1..] !in doc.ids;
    }
  }

  datatype Item = LinkItem(link: Link) | Separator

  /** The separator rule: a bullet follows link `index` when it is not the
      last of `count`. */
  predicate SeparatorAfter(index: nat, count: nat) {
    index < count - 1
  }

  /** What `links.map((link, index) => ...)` renders from position `i` on:
      each link, followed by a bullet when the rule says so. */
  function ItemsFrom(links: seq<Link>, i: nat): seq<Item>
    decreases |links| - i
  {
    if i >= |links| then []
    else [LinkItem(links[i])] + (if SeparatorAfter(i, |links|) then [Separator] else []) + ItemsFrom(links, i + 1)
  }

  function LegalRow(links: seq<Link>): seq<Item> {
    ItemsFrom(links, 0)
  }

  /** The reference row: the links joined by bullets. */
  function Joined(links: seq<Link>): seq<Item>
    decreases |links|
  {
    if |links| == 0 then []
    else if |links| == 1 then [LinkItem(links[0])]
    else [LinkItem(links[0]), Separator] + Joined(links[1..])
  }

  /** The index rule renders exactly the links joined by bullets. */
  lemma {:induction false} ItemsFromIsJoined(links: seq<Link>, i: nat)
    requires i <= |links|
    ensures ItemsFrom(links, i) == Joined(links[i..])
    decreases |links| - i
  {
    if i < |links| {
      ItemsFromIsJoined(links, i + 1);
      assert links[i..][1..] == links[i + 1..];
      if i + 1 == |links| {
        assert ItemsFrom(links, i + 1) == [];
      }
    }
  }

  /** A joined row of `n > 0` links has `2n - 1` items, `n - 1` of them
      bullets, and ends with the last link. */
  lemma {:induction false} JoinedShape(links: seq<Link>)
    requires |links| > 0
    ensures |Joined(links)| == 2 * |links| - 1
    ensures multiset(Joined(links))[Separator] == |links| - 1
    ensures Joined(links)[0] == LinkItem(links[0])
    ensures Joined(links)[|Joined(links)| - 1] == LinkItem(links[|links| - 1])
    decreases |links|
  {
    if |links| > 1 {
      JoinedShape(links[1..]);
    }
  }

  /** `n` legal links give `n - 1` bullets, one between each neighbouring
      pair and none after the last link. */
  lemma LegalRowShape(links: seq<Link>)
    ensures LegalRow(links) == Joined(links)
    ensures |links| == 0 ==> LegalRow(links) == []
    ensures |links| > 0 ==> multiset(LegalRow(links))[Separator] == |links| - 1
    ensures |links| > 0 ==> |LegalRow(links)| == 2 * |links| - 1
    ensures |links| > 0 ==> LegalRow(links)[|LegalRow(links)| - 1] == LinkItem(links[|links| - 1])
  {
    ItemsFromIsJoined(links, 0);
    assert links[0..] == links;
    if |links| > 0 {
      JoinedShape(links);
    }
  }

  /** The four legal links render as seven items with three bullets, ending
      with "DMCA Policy". */
  lemma LegalLinksRow()
    ensures |LegalRow(LegalLinks)| == 7
    ensures multiset(LegalRow(LegalLinks))[Separator] == 3
    ensures LegalRow(LegalLinks)[0] == LinkItem(Link("Terms of Service", "/terms"))
    ensures LegalRow(LegalLinks)[6] == LinkItem(Link("DMCA Policy", "/dmca"))
  {
    LegalRowShape(LegalLinks);
  }
}

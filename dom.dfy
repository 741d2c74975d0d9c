/** The parts of the browser document the components touch: which element ids
    exist, the inline `overflow` style of `document.body`, and the
    `scrollIntoView` calls made so far (recorded in order, since scrolling is
    an effect the model cannot observe otherwise). */
module Dom {
  import opened Options
  import opened Strings

  /** A React node handed to a component (children, a fallback, an icon); the
      model only passes it along, so it is compared by identity alone. */
  datatype Node = Node(key: string)

  /** `block` option passed to `scrollIntoView`: `'start'` or left out. */
  datatype Block = BlockStart | BlockUnspecified

  /** One `element.scrollIntoView({ behavior: 'smooth', ... })` call. Every
      call in this code base asks for smooth behaviour. */
  datatype Scroll = Scroll(target: string, block: Block)

  /** The ids the page's sections carry: `home` on the hero, `features` and
      `community` on the two sections after it. No other element of the page
      has an id. */
  const PageSectionIds: set<string> := {"home", "features", "community"}

  class Document {
    /** Ids of the elements present on the page. */
    const ids: set<string>
    /** `document.body.style.overflow`. */
    var bodyOverflow: string
    /** Every `scrollIntoView` call so far, oldest first. */
    var scrolls: seq<Scroll>

    constructor (ids: set<string>)
      ensures this.ids == ids && bodyOverflow == "" && scrolls == []
    {
      this.ids := ids;
      bodyOverflow := "";
      scrolls := [];
    }

    /** `document.getElementById(id) != null`. */
    predicate HasElement(id: string) {
      id != "" && id in ids
    }

    /** `document.querySelector(selector)` for an id selector `#id`: the id of
        the element found, or `None` when no element matches. */
    function QuerySelector(selector: string): (found: Option<string>)
      ensures found.Some? <==> (StartsWith(selector, "#") && HasElement(selector[1..]))
      ensures found.Some? ==> selector == "#" + found.value
    {
      if StartsWith(selector, "#") && HasElement(selector[1..]) then Some(selector[1..]) else None
    }

    /** The element an in-page link `href` scrolls to: it must start with
        `#` and name an existing element. */
    function AnchorTarget(href: string): (target: Option<string>)
      ensures target.Some? <==> (StartsWith(href, "#") && HasElement(href[1..]))
      ensures target.Some? ==> href == "#" + target.value && HasElement(target.value)
    {
      if StartsWith(href, "#") then QuerySelector(href) else None
    }

    method ScrollIntoView(target: string, block: Block)
      requires HasElement(target)
      modifies this`scrolls
      ensures scrolls == old(scrolls) + [Scroll(target, block)]
    {
      scrolls := scrolls + [Scroll(target, block)];
    }

    method SetBodyOverflow(value: string)
      modifies this`bodyOverflow
      ensures bodyOverflow == value
    {
      bodyOverflow := value;
    }
  }
}

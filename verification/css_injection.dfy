/** The stylesheet registry of `src/lib/services/cssInjectionService.ts`.
    Each injected stylesheet is a `<style>` element appended to the document
    head and remembered under its id; the head is modelled as the sequence of
    those elements, each with a node number standing for its identity. */
module CssInjection {
  import opened Wrappers
  import opened Seqs

  datatype StyleElement = StyleElement(node: nat, domId: string, text: string)

  /** The DOM id given to the element injected under `id`. */
  function DomIdFor(id: string): string {
    "theme-" + id
  }

  const CustomCssId := "user-custom"

  /** The head with one element node taken out. */
  function Detach(head: seq<StyleElement>, node: nat): (r: seq<StyleElement>)
    ensures forall i :: 0 <= i < |r| ==> r[i] in head && r[i].node != node
    ensures forall i :: 0 <= i < |head| && head[i].node != node ==> head[i] in r
  {
    Filter(head, (e: StyleElement) => e.node != node)
  }

  /** Every registered element is in the head under its DOM id, every
      element in the head is registered, distinct ids hold distinct elements,
      and every node number is below the next one to hand out. */
  predicate Consistent(styles: map<string, StyleElement>, head: seq<StyleElement>, nextNode: nat) {
    && (forall id :: id in styles ==>
          styles[id] in head && styles[id].domId == DomIdFor(id) && styles[id].node < nextNode)
    && (forall i :: 0 <= i < |head| ==> head[i].node < nextNode && head[i] in styles.Values)
    && (forall a, b :: a in styles && b in styles && a != b ==> styles[a].node != styles[b].node)
  }

  /** Registering a fresh element under a free id and appending it keeps the
      registry and the head consistent. */
  lemma {:induction false} AppendKeepsConsistent(
    styles: map<string, StyleElement>, head: seq<StyleElement>, nextNode: nat, id: string, css: string)
    requires Consistent(styles, head, nextNode) && id !in styles
    ensures var e := StyleElement(nextNode, DomIdFor(id), css);
      Consistent(styles[id := e], head + [e], nextNode + 1)
  {
    var e := StyleElement(nextNode, DomIdFor(id), css);
    var styles', head' := styles[id := e], head + [e];
    forall i | 0 <= i < |head'|
      ensures head'[i] in styles'.Values
    {
      if i < |head| {
        assert head[i] in styles.Values;
        var k :| k in styles && styles[k] == head[i];
        assert styles'[k] == head'[i];
      } else {
        assert styles'[id] == head'[i];
      }
    }
  }

  /** Unregistering an id and detaching its element keeps the registry and
      the head consistent. */
  lemma {:induction false} RemoveKeepsConsistent(
    styles: map<string, StyleElement>, head: seq<StyleElement>, nextNode: nat, id: string)
    requires Consistent(styles, head, nextNode) && id in styles
    ensures Consistent(styles - {id}, Detach(head, styles[id].node), nextNode)
  {
    var styles', head' := styles - {id}, Detach(head, styles[id].node);
    forall i | 0 <= i < |head'|
      ensures head'[i] in styles'.Values
    {
      var e := head'[i];
      assert e in head;
      var j :| 0 <= j < |head| && head[j] == e;
      assert head[j] in styles.Values;
      var k :| k in styles && styles[k] == e;
      assert k != id;
      assert styles'[k] == e;
    }
    forall k | k in styles'
      ensures styles'[k] in head'
    {
      assert styles[k] in head;
      var j :| 0 <= j < |head| && head[j] == styles[k];
      assert head[j].node != styles[id].node;
    }
  }

  /** Removing a key and then setting it is the same as setting it. */
  lemma ReplaceAfterRemove<K, V>(m: map<K, V>, k: K, v: V)
    ensures (m - {k})[k := v] == m[k := v]
  {
  }

  class CssInjectionService {
    var styles: map<string, StyleElement>
    var head: seq<StyleElement>
    var nextNode: nat

    predicate Valid()
      reads this
    {
      Consistent(styles, head, nextNode)
    }

    constructor ()
      ensures Valid() && styles == map[] && head == []
    {
      styles := map[];
      head := [];
      nextNode := 0;
    }

    /** `removeCSS`: the element registered under `id`, if any, leaves the
        head and the registry; nothing else changes. */
    method RemoveCss(id: string)
      requires Valid()
      modifies this
      ensures Valid()
      ensures styles == old(styles) - {id}
      ensures id in old(styles) ==> head == Detach(old(head), old(styles)[id].node)
      ensures id !in old(styles) ==> head == old(head)
      ensures nextNode == old(nextNode)
    {
      if id in styles {
        RemoveKeepsConsistent(styles, head, nextNode, id);
        styles, head := styles - {id}, Detach(head, styles[id].node);
      }
    }

    /** `injectCSS`: replaces any stylesheet registered under `id` by a new
        element with DOM id `theme-<id>` and text `css`, appended last. */
    method InjectCss(id: string, css: string)
      requires Valid()
      modifies this
      ensures Valid()
      ensures styles == old(styles)[id := StyleElement(old(nextNode), DomIdFor(id), css)]
      ensures id in old(styles) ==> head == Detach(old(head), old(styles)[id].node) + [styles[id]]
      ensures id !in old(styles) ==> head == old(head) + [styles[id]]
      ensures nextNode == old(nextNode) + 1
      ensures GetInjectedCss(id) == Some(css)
    {
      RemoveCss(id);
      var e := StyleElement(nextNode, DomIdFor(id), css);
      AppendKeepsConsistent(styles, head, nextNode, id, css);
      ReplaceAfterRemove(old(styles), id, e);
      styles, head, nextNode := styles[id := e], head + [e], nextNode + 1;
    }

    /** `injectThemeCSS`: registered under `theme-<name>`, so its DOM id is
        `theme-theme-<name>`. */
    method InjectThemeCss(themeName: string, css: string)
      requires Valid()
      modifies this
      ensures Valid()
      ensures styles == old(styles)["theme-" + themeName := StyleElement(old(nextNode), "theme-theme-" + themeName, css)]
      ensures "theme-" + themeName in old(styles) ==> head == Detach(old(head), old(styles)["theme-" + themeName].node) + [styles["theme-" + themeName]]
      ensures "theme-" + themeName !in old(styles) ==> head == old(head) + [styles["theme-" + themeName]]
      ensures nextNode == old(nextNode) + 1
      ensures GetInjectedCss("theme-" + themeName) == Some(css)
    {
      assert DomIdFor("theme-" + themeName) == "theme-theme-" + themeName;
      InjectCss("theme-" + themeName, css);
    }

    /** `injectCustomCSS`: the user's stylesheet, registered as `user-custom`. */
    method InjectCustomCss(userCss: string)
      requires Valid()
      modifies this
      ensures Valid()
      ensures styles == old(styles)[CustomCssId := StyleElement(old(nextNode), "theme-user-custom", userCss)]
      ensures CustomCssId in old(styles) ==> head == Detach(old(head), old(styles)[CustomCssId].node) + [styles[CustomCssId]]
      ensures CustomCssId !in old(styles) ==> head == old(head) + [styles[CustomCssId]]
      ensures nextNode == old(nextNode) + 1
      ensures GetInjectedCss(CustomCssId) == Some(userCss)
    {
      assert DomIdFor(CustomCssId) == "theme-user-custom";
      InjectCss(CustomCssId, userCss);
    }

    /** `removeAllCSS`: every registered element leaves the head, which
        leaves it empty, and the registry is emptied. */
    method RemoveAllCss()
      requires Valid()
      modifies this
      ensures Valid()
      ensures styles == map[] && head == []
    {
      var registered := styles.Values;
      FilterKeepsNone(head, (e: StyleElement) => e !in registered);
      head := Filter(head, (e: StyleElement) => e !in registered);
      styles := map[];
    }

    /** `getInjectedCSS`: the text registered under `id`, if any. */
    function GetInjectedCss(id: string): (r: Option<string>)
      reads this
      ensures r.Some? <==> id in styles
      ensures r.Some? ==> r.value == styles[id].text
    {
      if id in styles then Some(styles[id].text) else None
    }

    /** `hasInjectedCSS`. */
    function HasInjectedCss(id: string): (b: bool)
      reads this
      ensures b <==> GetInjectedCss(id).Some?
    {
      id in styles
    }
  }
}

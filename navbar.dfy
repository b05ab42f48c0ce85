/**
 * The navigation bar: the fixed list of links, and the copy of it, made
 * for each request, in which the link of the current section is marked
 * active.
 */
module Navbar {

  /** `caption` is the link's "label" entry. */
  datatype Link = Link(caption: string, href: string, icon: string)

  /** A copy of a link with its `active` flag. */
  datatype NavLink = NavLink(caption: string, href: string, icon: string, active: bool)

  const Root := "/"

  /** The links, with the paths the named routes resolve to. */
  const Links: seq<Link> := [
    Link("Home", "/", "bi bi-house-door"),
    Link("Clientes", "/clientes/", "bi bi-people"),
    Link("Produtos", "/productos/", "bi bi-box"),
    Link("Mascotas", "/mascotas/", "bi bi-paw"),
    Link("Veterinarios", "/veterinarios/", "bi bi-person"),
    Link("Citas", "/citas/", "bi bi-calendar"),
    Link("Medicamentos", "/medicamentos/", "bi bi-capsule"),
    Link("Proveedores", "/proveedores/", "bi bi-truck")
  ]

  /** `str.startswith`: `prefix` is an initial segment of `s`. */
  predicate StartsWith(s: string, prefix: string) {
    |prefix| <= |s| && s[..|prefix|] == prefix
  }

  /**
   * `add_active`: a copy of the link, flagged active when the request is for
   * its section. The root link is active only on the root path; any other
   * on every path that extends its href.
   */
  function AddActive(path: string, link: Link): (n: NavLink)
    ensures Unmark(n) == link
    ensures link.href == Root ==> (n.active <==> path == Root)
    ensures link.href != Root ==> (n.active <==> exists rest :: path == link.href + rest)
  {
    var active := if link.href == Root then path == Root else StartsWith(path, link.href);
    assert active && link.href != Root ==> path == link.href + path[|link.href|..];
    NavLink(link.caption, link.href, link.icon, active)
  }

  /** `map(add_active, links)`, in order. */
  function Mark(path: string, links: seq<Link>): (marked: seq<NavLink>)
    ensures |marked| == |links|
  {
    if links == [] then [] else [AddActive(path, links[0])] + Mark(path, links[1..])
  }

  /** The link a marked copy was made from. */
  function Unmark(n: NavLink): Link {
    Link(n.caption, n.href, n.icon)
  }

  /** The marked list has one copy per link, in the same position. */
  lemma {:induction false} MarkAt(path: string, links: seq<Link>, i: nat)
    requires i < |links|
    ensures |Mark(path, links)| == |links|
    ensures Mark(path, links)[i] == AddActive(path, links[i])
  {
    if i > 0 {
      MarkAt(path, links[1..], i - 1);
    } else if |links| > 1 {
      MarkAt(path, links[1..], 0);
    }
  }

  /**
   * The shape of the link list: Home comes first and is the root; every
   * other href is a section path "/…/" below it; no caption or href is
   * used twice.
   */
  lemma LinksShape()
    ensures |Links| == 8 && Links[0].caption == "Home" && Links[0].href == Root
    ensures forall i :: 1 <= i < |Links| ==>
      |Links[i].href| > 2 && Links[i].href[0] == '/' && Links[i].href[|Links[i].href| - 1] == '/'
    ensures forall i, j :: 0 <= i < j < |Links| ==> Links[i].caption != Links[j].caption
    ensures forall i, j :: 0 <= i < j < |Links| ==> Links[i].href != Links[j].href
  {
  }

  /** Removing the flags gives back the links unchanged. */
  lemma {:induction false} MarkKeepsLinks(path: string, links: seq<Link>)
    ensures |Mark(path, links)| == |links|
    ensures forall i :: 0 <= i < |links| ==> Unmark(Mark(path, links)[i]) == links[i]
  {
    if links != [] {
      MarkKeepsLinks(path, links[1..]);
    }
  }

  /** Of two prefixes of the same text, the shorter is a prefix of the longer. */
  lemma PrefixesAgree(s: string, p: string, q: string)
    requires StartsWith(s, p) && StartsWith(s, q) && |p| <= |q|
    ensures StartsWith(q, p)
  {
    assert q[..|p|] == s[..|q|][..|p|];
  }

  /** A prefix long enough agrees with the text at positions 1 and 4. */
  lemma PrefixKeepsTag(s: string, p: string)
    requires |p| > 4
    ensures StartsWith(s, p) ==> s[1] == p[1] && s[4] == p[4]
  {
    if StartsWith(s, p) {
      assert s[..|p|] == p;
    }
  }

  /** The sections' paths, told apart by their characters at positions 1 and 4. */
  lemma SectionTags(i: nat)
    requires 1 <= i < |Links|
    ensures |Links[i].href| > 4
    ensures (Links[i].href[1], Links[i].href[4]) ==
      [('c', 'e'), ('p', 'd'), ('m', 'c'), ('v', 'e'), ('c', 'a'), ('m', 'i'), ('p', 'v')][i - 1]
  {
  }

  /** No section's path is a prefix of another's, and none is the root. */
  lemma SectionsApart(i: nat, j: nat)
    requires 1 <= i < |Links| && 1 <= j < |Links| && i != j
    ensures !StartsWith(Links[j].href, Links[i].href)
    ensures Links[i].href != Root && |Links[i].href| > 1
  {
    SectionTags(i);
    SectionTags(j);
    PrefixKeepsTag(Links[j].href, Links[i].href);
  }

  /** Home is active exactly on the root path. */
  lemma HomeOnlyAtRoot(path: string)
    ensures Mark(path, Links)[0].active <==> path == Root
  {
    MarkAt(path, Links, 0);
  }

  /** Two links of the bar that are both active for one path are the same link. */
  lemma ActiveLinksEqual(path: string, i: nat, j: nat)
    requires i < |Links| && j < |Links|
    requires AddActive(path, Links[i]).active && AddActive(path, Links[j]).active
    ensures i == j
  {
    if i != j {
      if i == 0 || j == 0 {
        var k := if i == 0 then j else i;
        SectionsApart(k, if k == 1 then 2 else 1);
      } else if |Links[i].href| <= |Links[j].href| {
        PrefixesAgree(path, Links[i].href, Links[j].href);
        SectionsApart(i, j);
      } else {
        PrefixesAgree(path, Links[j].href, Links[i].href);
        SectionsApart(j, i);
      }
    }
  }

  /** At most one link is active, whatever the path. */
  lemma AtMostOneActive(path: string, i: nat, j: nat)
    requires i < |Links| && j < |Links|
    requires Mark(path, Links)[i].active && Mark(path, Links)[j].active
    ensures i == j
  {
    MarkAt(path, Links, i);
    MarkAt(path, Links, j);
    ActiveLinksEqual(path, i, j);
  }

  /** On the root path only Home is active. */
  lemma OnlyHomeAtRoot(i: nat)
    requires i < |Links|
    ensures Mark(Root, Links)[i].active <==> i == 0
  {
    MarkAt(Root, Links, i);
    if i > 0 {
      SectionsApart(i, if i == 1 then 2 else 1);
    }
  }

  /** An edit page of a client marks Clientes, and nothing else. */
  lemma ClientPageMarksClientes(i: nat)
    requires i < |Links|
    ensures Mark("/clientes/editar/3/", Links)[i].active <==> i == 1
  {
    MarkAt("/clientes/editar/3/", Links, i);
    MarkAt("/clientes/editar/3/", Links, 1);
    assert StartsWith("/clientes/editar/3/", "/clientes/");
    if i != 1 && Mark("/clientes/editar/3/", Links)[i].active {
      AtMostOneActive("/clientes/editar/3/", i, 1);
    }
  }
}

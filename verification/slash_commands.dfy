/** The editor's slash-command menu
    (`src/components/Editor/Plugins/Commands/suggestion.ts`): a fixed list of
    commands narrowed to those whose title starts with the typed query,
    ignoring case, and cut to ten. Case is folded for ASCII letters only. */
module SlashCommands {
  import opened Text
  import opened Seqs

  /** What a command does to the document. */
  datatype Action = TaskList | Heading(level: nat) | BulletList | OrderedList

  datatype Command = Command(title: string, subtitle: string, image: string, action: Action)

  const MaxItems := 10

  const ToDos := Command("To Dos", "Create a to do list with checkboxes", "/images/editor/commands/todos.png", TaskList)
  const Heading1 := Command("Heading 1", "BIG heading", "/images/editor/commands/heading.png", Heading(1))
  const Heading2 := Command("Heading 2", "Less Big heading", "/images/editor/commands/heading2.png", Heading(2))
  const Heading3 := Command("Heading 3", "Medium big heading", "/images/editor/commands/heading3.png", Heading(3))
  const Bullets := Command("Bullet List", "Pew pew pew", "/images/editor/commands/bulletlist.png", BulletList)
  const Numbered := Command("Numbered List", "1, 2, 3, 4...", "/images/editor/commands/numberedlist.png", OrderedList)

  /** The menu, in the order it is shown. */
  const Commands: seq<Command> := [ToDos, Heading1, Heading2, Heading3, Bullets, Numbered]

  /** Whether a command is offered for the query. */
  predicate Offered(c: Command, query: string) {
    StartsWith(Lower(c.title), Lower(query))
  }

  function OfferedFor(query: string): Command -> bool {
    (c: Command) => Offered(c, query)
  }

  /** JavaScript's `slice(0, n)`: at most the first `n` elements. */
  function Take<T>(s: seq<T>, n: nat): (r: seq<T>)
    ensures |r| <= n && |r| <= |s| && r == s[..|r|]
    ensures |r| == n || r == s
  {
    if |s| <= n then s else s[..n]
  }

  /** `items({ query })`. */
  function Items(query: string): (r: seq<Command>)
    ensures |r| <= MaxItems
    ensures forall i :: 0 <= i < |r| ==> r[i] in Commands && Offered(r[i], query)
  {
    Take(Filter(Commands, OfferedFor(query)), MaxItems)
  }

  /** Fewer commands than the cut: nothing is cut off. */
  lemma {:induction false} ItemsAreFiltered(query: string)
    ensures Items(query) == Filter(Commands, OfferedFor(query))
  {
    var kept := Filter(Commands, OfferedFor(query));
    assert |Commands| == 6;
    assert |kept| < MaxItems;
  }

  /** Every command whose title starts with the query is offered, as the list
      is shorter than the cut. */
  lemma ItemsComplete(query: string)
    ensures forall i :: 0 <= i < |Commands| && Offered(Commands[i], query) ==> Commands[i] in Items(query)
  {
    ItemsAreFiltered(query);
    assert forall i :: 0 <= i < |Commands| && Offered(Commands[i], query) ==> OfferedFor(query)(Commands[i]);
  }

  /** The offered commands appear in the menu's order. */
  lemma ItemsKeepOrder(query: string)
    ensures IsSubsequence(Items(query), Commands)
  {
    ItemsAreFiltered(query);
    FilterIsSubsequence(Commands, OfferedFor(query));
  }

  /** An empty query offers the whole menu. */
  lemma EmptyQueryOffersAll()
    ensures Items("") == Commands
  {
    forall i | 0 <= i < |Commands|
      ensures OfferedFor("")(Commands[i])
    {
      assert Lower("") == "";
    }
    FilterKeepsAll(Commands, OfferedFor(""));
  }
}

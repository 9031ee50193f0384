/** The world selector: four buttons whose ids are cast into the theme type. */
module ThemeSelector {
  import opened ThemeContext

  datatype Entry = Entry(id: Theme, name: string, description: string)

  const Entries: seq<Entry> := [
    Entry(Light, "Aurora", "Morning sunrise planet"),
    Entry(Dark, "Cosmos", "Deep space journey"),
    Entry(Neon, "Circuit", "High-tech arena"),
    Entry(Zen, "Eden", "Avatar forest planet")
  ]

  /** The four ids are light, dark, neon and zen, pairwise distinct, and none
      of them is a declared (whitelisted) theme. */
  lemma EntryIds(k: nat, m: nat)
    requires k < |Entries| && m < |Entries|
    ensures |Entries| == 4
    ensures Entries[k].id in {Light, Dark, Neon, Zen}
    ensures Entries[k].id == Entries[m].id <==> k == m
    ensures Name(Entries[k].id) !in Persistable && !IsDeclared(Entries[k].id)
  {
  }

  /** A button click: the theme becomes that button's id. */
  function Click(p: Provider, k: nat): (q: Provider)
    requires k < |Entries|
    ensures q.theme == Entries[k].id && Synced(q)
  {
    SetTheme(p, Entries[k].id)
  }

  /** A button is highlighted exactly when the theme is its id. */
  predicate Highlighted(p: Provider, k: nat)
    requires k < |Entries|
  {
    p.theme == Entries[k].id
  }

  /** At most one button is highlighted, and after a click it is the clicked one. */
  lemma HighlightIsUnique(p: Provider, k: nat, m: nat)
    requires k < |Entries| && m < |Entries|
    ensures Highlighted(p, k) && Highlighted(p, m) ==> k == m
    ensures Highlighted(Click(p, k), m) <==> k == m
  {
    EntryIds(k, m);
  }

  /** A choice made here lasts only for the session: after a reload the
      store rejects the saved id and falls back to the default theme. */
  lemma ChoiceDoesNotSurviveReload(p: Provider, k: nat)
    requires k < |Entries|
    ensures Mount(Click(p, k).stored).theme == DefaultTheme
  {
    EntryIds(k, k);
    SaveLoadRoundTrip(p, Entries[k].id);
  }
}

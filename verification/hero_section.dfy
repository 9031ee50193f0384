/** The hero banner: per-theme copy, and the title split into a plain lead
    and a highlighted tail of two words. */
module HeroSection {
  import opened ThemeContext

  datatype Content = Content(title: string, subtitle: string, font: string, background: string)

  const Aurora: Content :=
    Content("Enter Aurora", "Where champions rise with the morning sun", "font-inter", "bg-gradient-morning")

  /** `getThemeContent`: `dark`, `neon` and `zen` have copy of their own;
      every other value, the five declared themes included, gets Aurora. */
  function ContentFor(t: Theme): (c: Content)
    ensures !(t.Dark? || t.Neon? || t.Zen?) ==> c == Aurora
    ensures (t.Dark? || t.Neon? || t.Zen?) ==> c.title != Aurora.title
  {
    match t
    case Dark => Content("Enter Cosmos", "Where chess masters journey through infinite space", "font-cinzel", "bg-gradient-nebula")
    case Neon => Content("Access Circuit", "Neural networks clash in electric harmony", "font-orbitron", "bg-gradient-tech")
    case Zen => Content("Welcome to Eden", "Where ancient wisdom flows through living forests", "font-noto", "bg-gradient-nature")
    case _ => Aurora
  }

  /** `s.split(' ')`: the pieces between single spaces, empty ones included;
      there is always at least one piece. */
  function Split(s: string): (ws: seq<string>)
    ensures |ws| >= 1
    ensures forall k :: 0 <= k < |ws| ==> ' ' !in ws[k]
  {
    if |s| == 0 then [""]
    else
      var rest := Split(s[1..]);
      if s[0] == ' ' then [""] + rest
      else [[s[0]] + rest[0]] + rest[1..]
  }

  /** `ws.join(' ')`. */
  function Join(ws: seq<string>): string {
    if |ws| == 0 then ""
    else if |ws| == 1 then ws[0]
    else ws[0] + " " + Join(ws[1..])
  }

  /** Joining the pieces with single spaces gives back the original string. */
  lemma {:induction false} JoinSplit(s: string)
    ensures Join(Split(s)) == s
  {
    if |s| > 0 {
      var rest := Split(s[1..]);
      JoinSplit(s[1..]);
      if s[0] != ' ' && |rest| > 1 {
        assert Join(rest) == rest[0] + " " + Join(rest[1..]);
        var ws := [[s[0]] + rest[0]] + rest[1..];
        assert ws[1..] == rest[1..];
      } else if s[0] == ' ' {
        assert ([""] + rest)[1..] == rest;
      }
    }
  }

  /** Joining two non-empty lists is joining each and putting a space between. */
  lemma {:induction false} JoinAppend(a: seq<string>, b: seq<string>)
    requires |a| >= 1 && |b| >= 1
    ensures Join(a + b) == Join(a) + " " + Join(b)
    decreases |a|
  {
    if |a| > 1 {
      assert (a + b)[1..] == a[1..] + b;
      JoinAppend(a[1..], b);
    } else {
      assert (a + b)[1..] == b;
    }
  }

  /** Where `slice(0, -2)` ends and `slice(-2)` starts. */
  function Cut(ws: seq<string>): (k: nat)
    ensures k <= |ws|
    ensures |ws[k..]| == if |ws| >= 2 then 2 else |ws|
  {
    if |ws| >= 2 then |ws| - 2 else 0
  }

  /** The plain lead: every word but the last two. */
  function Lead(title: string): string {
    var ws := Split(title);
    Join(ws[..Cut(ws)])
  }

  /** The highlighted tail: the last two words (or the whole title when it
      has fewer). */
  function Tail(title: string): string {
    var ws := Split(title);
    Join(ws[Cut(ws)..])
  }

  /** The lead and the tail, put back together with a space, give the title;
      a title of at most two words is all tail. */
  lemma TitleReassembles(title: string)
    ensures |Split(title)| <= 2 ==> Lead(title) == "" && Tail(title) == title
    ensures |Split(title)| > 2 ==> Lead(title) + " " + Tail(title) == title
  {
    var ws := Split(title);
    JoinSplit(title);
    if |ws| <= 2 {
      assert ws[Cut(ws)..] == ws;
    } else {
      JoinAppend(ws[..Cut(ws)], ws[Cut(ws)..]);
      assert ws[..Cut(ws)] + ws[Cut(ws)..] == ws;
    }
  }

  /** The tail never holds more than two words, and it holds the last two. */
  lemma TailIsLastTwoWords(title: string)
    ensures var ws := Split(title);
            |ws| >= 2 ==> Tail(title) == ws[|ws| - 2] + " " + ws[|ws| - 1]
  {
    var ws := Split(title);
    if |ws| >= 2 {
      var tail := ws[Cut(ws)..];
      assert tail == [ws[|ws| - 2], ws[|ws| - 1]];
      assert Join(tail) == tail[0] + " " + Join(tail[1..]);
    }
  }

  /** A string without spaces is a single piece. */
  lemma {:induction false} SplitWord(w: string)
    requires ' ' !in w
    ensures Split(w) == [w]
  {
    if |w| > 0 {
      assert ' ' !in w[1..];
      SplitWord(w[1..]);
      assert [w[0]] + w[1..] == w;
    }
  }

  /** A leading word without spaces, then a space, splits off as one piece. */
  lemma {:induction false} SplitAtSpace(w: string, rest: string)
    requires ' ' !in w
    ensures Split(w + " " + rest) == [w] + Split(rest)
    decreases |w|
  {
    var s := w + " " + rest;
    if |w| == 0 {
      assert s[0] == ' ' && s[1..] == rest;
    } else {
      assert s[0] == w[0] && s[1..] == w[1..] + " " + rest;
      assert ' ' !in w[1..];
      SplitAtSpace(w[1..], rest);
      assert [w[0]] + w[1..] == w;
    }
  }

  /** A title of two space-free words is shown whole as the highlight. */
  lemma TwoWordTitle(a: string, b: string)
    requires ' ' !in a && ' ' !in b
    ensures Split(a + " " + b) == [a, b]
    ensures Lead(a + " " + b) == "" && Tail(a + " " + b) == a + " " + b
  {
    SplitWord(b);
    SplitAtSpace(a, b);
    TitleReassembles(a + " " + b);
  }

  /** Every banner but Eden has a two-word title, shown whole as the
      highlight with an empty lead. */
  lemma TwoWordBanner(t: Theme)
    requires !t.Zen?
    ensures Lead(ContentFor(t).title) == "" && Tail(ContentFor(t).title) == ContentFor(t).title
  {
    var title := ContentFor(t).title;
    var enter, aurora, cosmos, access, circuit := "Enter", "Aurora", "Cosmos", "Access", "Circuit";
    if t.Dark? {
      assert ' ' !in enter && ' ' !in cosmos;
      assert enter + " " + cosmos == title;
      TwoWordTitle(enter, cosmos);
    } else if t.Neon? {
      assert ' ' !in access && ' ' !in circuit;
      assert access + " " + circuit == title;
      TwoWordTitle(access, circuit);
    } else {
      assert ' ' !in enter && ' ' !in aurora;
      assert enter + " " + aurora == title;
      TwoWordTitle(enter, aurora);
    }
  }

  /** A title of three space-free words leads with the first and highlights
      the other two. */
  lemma ThreeWordTitle(title: string, a: string, b: string, c: string)
    requires ' ' !in a && ' ' !in b && ' ' !in c
    requires title == a + " " + b + " " + c
    ensures Lead(title) == a && Tail(title) == b + " " + c
  {
    var tail := b + " " + c;
    TwoWordTitle(b, c);
    SplitAtSpace(a, tail);
    assert title == a + " " + tail;
    var ws := Split(title);
    assert ws == [a, b, c];
    assert ws[..Cut(ws)] == [a];
    assert ws[Cut(ws)..] == [b, c];
    assert Join([b, c]) == b + " " + Join([c]);
  }

  /** The Eden banner's lead is "Welcome" and its highlight "to Eden". */
  lemma EdenBanner(t: Theme)
    requires t.Zen?
    ensures Lead(ContentFor(t).title) == "Welcome" && Tail(ContentFor(t).title) == "to Eden"
  {
    var welcome, to, eden := "Welcome", "to", "Eden";
    assert to + " " + eden == "to Eden";
    assert ' ' !in welcome && ' ' !in to && ' ' !in eden;
    var title := welcome + " " + to + " " + eden;
    assert title == ContentFor(t).title;
    ThreeWordTitle(title, welcome, to, eden);
  }
}

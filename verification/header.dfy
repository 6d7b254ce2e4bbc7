/** The `Header`: which user it shows (profile row, or a stand-in built from
    the session) and the avatar initials. */
module Header {
  import opened Wrappers
  import opened Session
  import Text

  /** The header's `user`: a profile row, or `{ name, email }` from the session. */
  datatype HeaderUser = FromProfile(profile: Profile) | FromSession(name: string, email: Option<string>)

  /** The outcome of `getSession()` as the header reads it. */
  datatype SessionLookup = NoSession | Active(user: SessionUser) | SessionThrew

  /** The outcome of the profile select. */
  datatype Query = QueryFailed | Rows(rows: seq<Profile>) | QueryThrew

  function Name(u: HeaderUser): string {
    match u
    case FromProfile(p) => p.name
    case FromSession(n, _) => n
  }

  /** The header's `getUser`: the first profile row when there is one, the
      session's email-based stand-in when there is none, and no change when
      there is no session or any call fails. */
  function LoadUser(current: Option<HeaderUser>, session: SessionLookup, profiles: Query): (u: Option<HeaderUser>)
    ensures !session.Active? ==> u == current
    ensures session.Active? && !profiles.Rows? ==> u == current
    ensures session.Active? && profiles.Rows? && |profiles.rows| > 0 ==> u == Some(FromProfile(profiles.rows[0]))
    ensures session.Active? && profiles.Rows? && |profiles.rows| == 0 ==>
              u.Some? && u.value.FromSession?
              && u.value.email == session.user.email
              && u.value.name == FallbackName(session.user.email)
  {
    match session
    case Active(su) =>
      (match profiles
       case Rows(rows) =>
         if |rows| > 0 then Some(FromProfile(rows[0]))
         else Some(FromSession(FallbackName(su.email), su.email))
       case _ => current)
    case _ => current
  }

  /** The reference reading of "initials": the characters that begin a word,
      a word being a maximal run of non-space characters. `afterSpace` says
      whether the previous character was a space (or there was none). */
  function WordStarts(s: string, afterSpace: bool): seq<char>
  {
    if s == [] then []
    else (if s[0] != ' ' && afterSpace then [s[0]] else []) + WordStarts(s[1..], s[0] == ' ')
  }

  /** `.map((n) => n[0]).join("")`: the first character of every piece, where
      an empty piece (`n[0]` is `undefined`) contributes nothing. */
  function FirstChars(parts: seq<string>): seq<char> {
    if parts == [] then []
    else (if parts[0] == [] then [] else [parts[0][0]]) + FirstChars(parts[1..])
  }

  /** `s.substring(0, n)`. */
  function Take(s: string, n: nat): string {
    if |s| <= n then s else s[..n]
  }

  /** The avatar initials: "U" without a name, otherwise the first letters of
      the words of the name, upper-cased, at most two of them. */
  function Initials(name: Option<string>): (r: string)
    ensures |r| <= 2
    ensures name.None? || name.value == [] ==> r == "U"
    ensures name.Some? && name.value != [] ==> r == Take(Text.Upper(WordStarts(name.value, true)), 2)
  {
    if name.None? || name.value == [] then "U"
    else
      FirstCharsOfSplit(name.value);
      Take(Text.Upper(FirstChars(Text.Split(name.value, ' '))), 2)
  }

  /** Splitting on single spaces and taking each piece's first character
      yields exactly the word-initial characters: the empty pieces that
      repeated, leading or trailing spaces produce contribute nothing. */
  lemma {:induction false} FirstCharsOfSplit(s: string)
    ensures FirstChars(Text.Split(s, ' ')) == WordStarts(s, true)
    decreases |s|
  {
    var head := Text.TakeUntil(s, ' ');
    if |head| == |s| {
      assert head == s;
      FirstCharsOfSingle(s);
    } else {
      var rest := s[|head| + 1..];
      FirstCharsOfSplit(rest);
      WordStartsAtSpace(s, head, rest);
      FirstCharsCons(head, Text.Split(rest, ' '));
      WordStartsOfWord(head);
    }
  }

  /** A single space-free piece contributes its first character, which is
      its only word start. */
  lemma {:induction false} FirstCharsOfSingle(w: string)
    requires ' ' !in w
    ensures FirstChars([w]) == WordStarts(w, true)
  {
    WordStartsOfWord(w);
    assert [w][1..] == [];
  }

  lemma {:induction false} FirstCharsCons(p: string, ps: seq<string>)
    ensures FirstChars([p] + ps) == (if p == [] then [] else [p[0]]) + FirstChars(ps)
  {
    assert ([p] + ps)[1..] == ps;
  }

  /** Cutting a string at a space: its word starts are those of the part
      before the space followed by those of the part after it. */
  lemma {:induction false} WordStartsAtSpace(s: string, head: string, rest: string)
    requires ' ' !in head && |head| < |s| && s == head + [' '] + rest
    ensures WordStarts(s, true) == WordStarts(head, true) + WordStarts(rest, true)
  {
    assert s == head + ([' '] + rest);
    WordStartsAppend(head, [' '] + rest, true);
    var after := if head == [] then true else head[|head| - 1] == ' ';
    assert after == (head == []) by {
      if head != [] {
        assert head[|head| - 1] in head;
      }
    }
    assert ([' '] + rest)[1..] == rest;
  }

  /** A space-free string contributes only its first character. */
  lemma {:induction false} WordStartsOfWord(w: string)
    requires ' ' !in w
    ensures WordStarts(w, true) == (if w == [] then [] else [w[0]])
  {
    if w != [] {
      NoWordStartsInside(w[1..]);
    }
  }

  /** Inside a word (not after a space) a space-free string starts no word. */
  lemma {:induction false} NoWordStartsInside(w: string)
    requires ' ' !in w
    ensures WordStarts(w, false) == []
  {
    if w != [] {
      NoWordStartsInside(w[1..]);
    }
  }

  lemma {:induction false} WordStartsAppend(a: string, b: string, afterSpace: bool)
    ensures WordStarts(a + b, afterSpace)
            == WordStarts(a, afterSpace) + WordStarts(b, if a == [] then afterSpace else a[|a| - 1] == ' ')
  {
    if a == [] {
      assert a + b == b;
    } else {
      assert (a + b)[1..] == a[1..] + b;
      WordStartsAppend(a[1..], b, a[0] == ' ');
    }
  }
}

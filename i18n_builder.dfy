/**
 * `getShortLocale` of the locale builder: the language part of a locale tag,
 * computed as `locale.split('-')[0]`.
 */
module I18nBuilder {

  /**
   * JavaScript's `String.prototype.split` with a one-character separator:
   * the pieces between separators, in order, always at least one.
   */
  function Split(s: string, sep: char): (parts: seq<string>)
    ensures |parts| >= 1
    ensures forall i :: 0 <= i < |parts| ==> sep !in parts[i]
    ensures parts[0] <= s
    ensures parts[0] == s || s[|parts[0]|] == sep
    ensures sep !in s ==> parts == [s]
  {
    if s == [] then
      [""]
    else
      var rest := Split(s[1..], sep);
      if s[0] == sep then [""] + rest
      else [[s[0]] + rest[0]] + rest[1..]
  }

  /** `Array.prototype.join` with a one-character separator: the partner of Split. */
  function Join(parts: seq<string>, sep: char): string
    requires |parts| >= 1
  {
    if |parts| == 1 then parts[0] else parts[0] + [sep] + Join(parts[1..], sep)
  }

  /** Joining the pieces back with the separator gives the original string. */
  lemma {:induction false} JoinSplit(s: string, sep: char)
    ensures Join(Split(s, sep), sep) == s
  {
    if s != [] {
      var rest := Split(s[1..], sep);
      JoinSplit(s[1..], sep);
      if s[0] == sep {
        assert Split(s, sep) == [""] + rest;
        assert ([""] + rest)[1..] == rest;
      } else {
        var parts := Split(s, sep);
        assert parts == [[s[0]] + rest[0]] + rest[1..];
        if |rest| == 1 {
          assert parts == [[s[0]] + rest[0]];
        } else {
          assert parts[1..] == rest[1..];
          assert Join(rest, sep) == rest[0] + [sep] + Join(rest[1..], sep);
        }
        assert s == [s[0]] + s[1..];
      }
    }
  }

  /** A separator-free piece followed by the separator splits off as one piece. */
  lemma {:induction false} SplitPieceThenSep(p: string, sep: char, t: string)
    requires sep !in p
    ensures Split(p + [sep] + t, sep) == [p] + Split(t, sep)
  {
    if p == [] {
      assert p + [sep] + t == [sep] + t;
      assert ([sep] + t)[1..] == t;
    } else {
      var s := p + [sep] + t;
      assert s[0] == p[0] && p[0] != sep by { assert p[0] in p; }
      assert s[1..] == p[1..] + [sep] + t;
      assert sep !in p[1..] by { assert forall c :: c in p[1..] ==> c in p; }
      SplitPieceThenSep(p[1..], sep, t);
      var rest := Split(s[1..], sep);
      assert rest == [p[1..]] + Split(t, sep);
      assert [p[0]] + p[1..] == p;
    }
  }

  /** Splitting a joined list of separator-free pieces gives the pieces back. */
  lemma {:induction false} SplitJoin(parts: seq<string>, sep: char)
    requires |parts| >= 1
    requires forall i :: 0 <= i < |parts| ==> sep !in parts[i]
    ensures Split(Join(parts, sep), sep) == parts
  {
    if |parts| > 1 {
      SplitJoin(parts[1..], sep);
      SplitPieceThenSep(parts[0], sep, Join(parts[1..], sep));
      assert parts == [parts[0]] + parts[1..];
    }
  }

  /** `getShortLocale(locale)`: the text before the first `-`, or the whole locale if it has none. */
  function GetShortLocale(locale: string): (short: string)
    ensures short <= locale
    ensures '-' !in short
    ensures short == locale || locale[|short|] == '-'
  {
    Split(locale, '-')[0]
  }

  /** The three properties above pin the result down: no other string has all of them. */
  lemma ShortLocaleUnique(locale: string, short: string)
    requires short <= locale
    requires '-' !in short
    requires short == locale || locale[|short|] == '-'
    ensures GetShortLocale(locale) == short
  {
  }

  /** A locale without `-` is returned unchanged. */
  lemma ShortLocaleWithoutDash(locale: string)
    requires '-' !in locale
    ensures GetShortLocale(locale) == locale
  {
  }

  /** The shipped locales, and a locale that starts with `-`. */
  lemma ShippedLocales(rest: string)
    ensures GetShortLocale("en-us") == "en"
    ensures GetShortLocale("de-de") == "de"
    ensures GetShortLocale("pt-br") == "pt"
    ensures GetShortLocale("-" + rest) == ""
  {
    ShortLocaleUnique("en-us", "en");
    ShortLocaleUnique("de-de", "de");
    ShortLocaleUnique("pt-br", "pt");
    ShortLocaleUnique("-" + rest, "");
  }
}

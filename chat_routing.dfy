/** How the site assistant (`ChatModal`) routes a text: to the booking
    endpoint when it matches `/бронь|заявка|transfer|book/i`, to the chat
    otherwise, and nowhere when it is blank; and where its quick command
    buttons go. */
module ChatRouting {
  import opened Web

  const BookingKeywords := ["бронь", "заявка", "transfer", "book"]

  /** `/бронь|заявка|transfer|book/i.test(text)`: some keyword matches at
      some position. */
  predicate IsBooking(text: string)
  {
    exists k, i :: 0 <= k < |BookingKeywords| && 0 <= i <= |text| - |BookingKeywords[k]|
                   && MatchesAt(text, i, BookingKeywords[k])
  }

  /** The text is no booking when each keyword has a letter that the text
      lacks. */
  lemma NotBooking(text: string, b: (char, char), z: (char, char), t: (char, char), k: (char, char))
    requires Lacks(text, b.0, b.1) && b.0 in BookingKeywords[0]
    requires Lacks(text, z.0, z.1) && z.0 in BookingKeywords[1]
    requires Lacks(text, t.0, t.1) && t.0 in BookingKeywords[2]
    requires Lacks(text, k.0, k.1) && k.0 in BookingKeywords[3]
    ensures !IsBooking(text)
  {
    NoMatch(text, BookingKeywords[0], b.0, b.1);
    NoMatch(text, BookingKeywords[1], z.0, z.1);
    NoMatch(text, BookingKeywords[2], t.0, t.1);
    NoMatch(text, BookingKeywords[3], k.0, k.1);
  }

  /** A text holding a word that matches a keyword is a booking, whatever
      surrounds the word. */
  lemma BookingInfix(prefix: string, word: string, suffix: string, k: nat)
    requires k < |BookingKeywords| && MatchesAt(word, 0, BookingKeywords[k]) && |word| == |BookingKeywords[k]|
    ensures IsBooking(prefix + word + suffix)
  {
    var text := prefix + word + suffix;
    forall j | 0 <= j < |word| ensures text[|prefix| + j] == word[j] { }
    assert MatchesAt(text, |prefix|, BookingKeywords[k]);
  }

  /** The quick command buttons, in order. */
  function QuickCommands(isEn: bool): seq<string>
  {
    if isEn then ["Create booking", "Show fleet", "Contact manager", "Pricing info"]
    else ["Оформить бронь", "Показать автопарк", "Связаться с менеджером", "Узнать цену"]
  }

  /** Case does not matter, and the Cyrillic Extended-C form of a letter
      counts as that letter. */
  lemma BookingIgnoresCase(prefix: string, suffix: string)
    ensures IsBooking(prefix + "БРОНЬ" + suffix)
    ensures IsBooking(prefix + "Transfer" + suffix)
    ensures IsBooking(prefix + "бр\U{1C82}нь" + suffix)
  {
    BookingInfix(prefix, "БРОНЬ", suffix, 0);
    BookingInfix(prefix, "Transfer", suffix, 2);
    BookingInfix(prefix, "бр\U{1C82}нь", suffix, 0);
  }

  /** Where `sendMessage` takes a text: nowhere when `text.trim()` is empty,
      that is when the text is white space only; to the booking endpoint when
      it mentions a booking; to the chat otherwise. */
  datatype Route = Ignored | BookingPath | ChatPath

  function RouteOf(text: string): Route
  {
    if AllSpace(text) then Ignored else if IsBooking(text) then BookingPath else ChatPath
  }

  /** The route is decided as `sendMessage` decides it: a text whose `trim()`
      is empty is ignored, and only then. */
  lemma RouteOfTrim(text: string)
    ensures RouteOf(text) == Ignored <==> Trim(text) == ""
    ensures RouteOf(text) == BookingPath <==> Trim(text) != "" && IsBooking(text)
    ensures RouteOf(text) == ChatPath <==> Trim(text) != "" && !IsBooking(text)
  {
    TrimEmptyIffAllSpace(text);
  }
}

/** From the URI of a request to its numbers: which application answers it, where the
    numbers start, and that a list of numbers is read as exactly these numbers. */
module Uris {
  import opened Decimal
  import opened Tokenizer
  import opened WireCodec
  import opened CalcData

  // ------------------------------------------------------------ which application

  /** The chain of applications: home page, factorization, Goldbach, not found. */
  const HOME := 0
  const NOT_FOUND := 3

  /** The first application that handles the request. */
  function Route(verb: string, uri: string): (app: nat)
    ensures app < APPLICATIONS
  {
    if verb == "GET" && uri == "/" then HOME
    else if "/fact" <= uri then FACT
    else if "/goldbach" <= uri then GOLDBACH
    else NOT_FOUND
  }

  /** Application 1 factorizes, application 2 finds Goldbach sums, and the rest of the
      URI does not matter. */
  lemma Routes(verb: string, rest: string)
    ensures Route(verb, "/fact" + rest) == 1 && Route(verb, "/goldbach" + rest) == 2
    ensures APPLICATIONS == 4 && Route(verb, "/") == if verb == "GET" then 0 else 3
    ensures rest == "" || (rest[0] != 'f' && rest[0] != 'g') ==>
              Route(verb, "/" + rest) == if verb == "GET" && rest == "" then 0 else 3
  {
    assert ("/fact" + rest)[1] == 'f' && ("/goldbach" + rest)[1] == 'g';
    assert rest != "" ==> ("/" + rest)[1] == rest[0];
    assert "/fact"[1] == 'f' && "/goldbach"[1] == 'g';
    if rest == "" { assert "/" + rest == "/"; }
  }

  // -------------------------------------------------------- where the numbers start

  /** Behind the first '=', whatever follows. */
  lemma NumbersBehindEquals(front: string, tail: string)
    requires Avoids(front, '=')
    ensures NumberTexts(front + "=" + tail) == NonEmpty(Split(tail, ","))
    ensures UriValues(front + "=" + tail) == NonEmpty(Split(tail, ","))
  {
    hide Split, NonEmpty;
    var uri := front + ['='] + tail;
    assert front + "=" + tail == uri;
    FindAfter(front, '=', tail);
    assert uri[|front| + 1..] == tail;
  }

  /** Without a '=' behind the last '/'. */
  lemma NumbersBehindSlash(front: string, tail: string)
    requires Avoids(front, '=') && Avoids(tail, '=') && Avoids(tail, '/')
    ensures NumberTexts(front + "/" + tail) == NonEmpty(Split(tail, ","))
    ensures UriValues(front + "/" + tail) == NonEmpty(Split(tail, ","))
  {
    hide Split, NonEmpty, Find, LastSlash;
    var uri := front + "/" + tail;
    FindNone(uri, '=');
    LastSlashAt(front, tail);
    assert uri[|front| + 1..] == tail;
  }

  lemma {:induction false} LastSlashAt(front: string, tail: string)
    requires Avoids(tail, '/')
    ensures LastSlash(front + "/" + tail) == |front|
    decreases |tail|
  {
    var uri := front + "/" + tail;
    if tail == [] {
      assert uri == front + "/";
    } else {
      assert uri[..|uri| - 1] == front + "/" + tail[..|tail| - 1];
      assert uri[|uri| - 1] == tail[|tail| - 1];
      LastSlashAt(front, tail[..|tail| - 1]);
    }
  }

  /** With neither the parser reads the whole text, and the answer shows nothing. */
  lemma NumbersWithoutPrefix(uri: string)
    requires Avoids(uri, '=') && Avoids(uri, '/')
    ensures NumberTexts(uri) == NonEmpty(Split(uri, ",")) && UriValues(uri) == []
  {
    hide Split, NonEmpty, Find, LastSlash;
    FindNone(uri, '=');
    NoSlash(uri);
    assert uri[0..] == uri;
  }

  lemma {:induction false} NoSlash(uri: string)
    requires Avoids(uri, '/')
    ensures LastSlash(uri) == -1
  {
    if uri != [] { NoSlash(uri[..|uri| - 1]); }
  }

  // ------------------------------------------------------------- what is a number

  /** A printed number with anything behind it that is not a digit is no number. */
  lemma TrailingText(n: int, more: string)
    requires more != "" && !IsDigit(more[0])
    ensures !ValidNumber(ToString(n) + more)
  {
    hide Value, Scan, Digits;
    var digits := Digits(if n < 0 then -n else n);
    var sign := if n < 0 then "-" else "";
    assert ToString(n) + more == "" + sign + digits + more;
    assert ToString(n) == sign + digits;
    ScanText("", sign, digits, more);
  }

  lemma PrintedIsValid(n: int)
    ensures ValidNumber(ToString(n)) <==> Int64(n)
    ensures Int64(n) ==> Stoll(ToString(n)).value == n
  {
    RoundTrip(n);
  }

  // ------------------------------------------------------------------ round trips

  /** The texts of a list of numbers, with commas between them. */
  function NumberList(numbers: seq<int>): string { Join(Texts(numbers), ",") }

  lemma {:induction false} TextsAt(numbers: seq<int>)
    ensures |Texts(numbers)| == |numbers|
    ensures forall k :: 0 <= k < |numbers| ==> Texts(numbers)[k] == ToString(numbers[k])
  {
    if numbers != [] { TextsAt(numbers[1..]); }
  }

  lemma {:induction false} SplitJoined(numbers: seq<int>)
    requires numbers != []
    ensures Split(NumberList(numbers), ",") == Texts(numbers)
  {
    hide Split, Find, ToString;
    var first, others := ToString(numbers[0]), numbers[1..];
    PrintedCharacters(numbers[0]);
    TextsAt(numbers);
    TextsAt(others);
    if others == [] {
      assert Texts(numbers) == [first];
      WholeToken(first);
    } else {
      SplitJoined(others);
      assert Texts(numbers)[1..] == Texts(others);
      assert NumberList(numbers) == first + [','] + NumberList(others);
      SplitFirst(first, ',', NumberList(others));
    }
  }

  lemma {:induction false} ValuesOfTexts(numbers: seq<int>, texts: seq<string>)
    requires AllInt64(numbers) && |texts| == |numbers|
    requires forall k :: 0 <= k < |numbers| ==> texts[k] == ToString(numbers[k])
    ensures ValidValues(texts) == numbers
  {
    hide ToString, Stoll, ValidNumber;
    if numbers != [] {
      var n := |numbers| - 1;
      ValuesOfTexts(numbers[..n], texts[..n]);
      PrintedIsValid(numbers[n]);
      assert numbers == numbers[..n] + [numbers[n]];
    }
  }

  lemma ListedTexts(numbers: seq<int>)
    requires numbers != [] && AllInt64(numbers)
    ensures NonEmpty(Split(NumberList(numbers), ",")) == Texts(numbers)
    ensures ValidValues(Texts(numbers)) == numbers
  {
    hide Split, NonEmpty, ToString;
    SplitJoined(numbers);
    NoneEmpty(numbers);
    TextsAt(numbers);
    ValuesOfTexts(numbers, Texts(numbers));
  }

  /** A query for any list of 64-bit numbers is parsed as exactly these numbers, behind
      any prefix that ends in the first '='. */
  lemma EqualsRoundTrip(front: string, numbers: seq<int>)
    requires Avoids(front, '=') && numbers != [] && AllInt64(numbers)
    ensures ValidValues(NumberTexts(front + "=" + NumberList(numbers))) == numbers
    ensures UriValues(front + "=" + NumberList(numbers)) == Texts(numbers)
  {
    hide NumberTexts, UriValues, Split, NonEmpty;
    NumbersBehindEquals(front, NumberList(numbers));
    ListedTexts(numbers);
  }

  lemma {:induction false} ListAvoids(numbers: seq<int>)
    ensures Avoids(NumberList(numbers), '=') && Avoids(NumberList(numbers), '/')
  {
    hide ToString;
    if numbers != [] {
      PrintedCharacters(numbers[0]);
      PrintedAvoids(numbers[0]);
      TextsAt(numbers);
      if |numbers| > 1 {
        TextsAt(numbers[1..]);
        assert Texts(numbers)[1..] == Texts(numbers[1..]);
        ListAvoids(numbers[1..]);
        assert NumberList(numbers) == ToString(numbers[0]) + "," + NumberList(numbers[1..]);
      } else {
        assert NumberList(numbers) == ToString(numbers[0]);
      }
    }
  }

  lemma PrintedAvoids(n: int)
    ensures Avoids(ToString(n), '/')
  {
    assert AllDigits(Digits(if n < 0 then -n else n));
  }

  /** The same for the other form, behind the last '/'. */
  lemma SlashRoundTrip(front: string, numbers: seq<int>)
    requires Avoids(front, '=') && numbers != [] && AllInt64(numbers)
    ensures ValidValues(NumberTexts(front + "/" + NumberList(numbers))) == numbers
    ensures UriValues(front + "/" + NumberList(numbers)) == Texts(numbers)
  {
    hide NumberTexts, UriValues, Split, NonEmpty;
    ListAvoids(numbers);
    NumbersBehindSlash(front, NumberList(numbers));
    ListedTexts(numbers);
  }

  /** The two forms that the program documents. */
  lemma DocumentedForms(numbers: seq<int>)
    requires numbers != [] && AllInt64(numbers)
    ensures ValidValues(NumberTexts("/fact?number=" + NumberList(numbers))) == numbers
    ensures ValidValues(NumberTexts("/goldbach?number=" + NumberList(numbers))) == numbers
    ensures ValidValues(NumberTexts("/fact/" + NumberList(numbers))) == numbers
    ensures ValidValues(NumberTexts("/goldbach/" + NumberList(numbers))) == numbers
  {
    hide NumberTexts, NumberList, ValidValues;
    EqualsForm("/fact?number", "/fact?number=", numbers);
    EqualsForm("/goldbach?number", "/goldbach?number=", numbers);
    SlashForm("/fact", "/fact/", numbers);
    SlashForm("/goldbach", "/goldbach/", numbers);
  }

  lemma EqualsForm(front: string, form: string, numbers: seq<int>)
    requires form == front + "=" && Avoids(front, '=') && numbers != [] && AllInt64(numbers)
    ensures ValidValues(NumberTexts(form + NumberList(numbers))) == numbers
  {
    hide NumberTexts, NumberList, ValidValues;
    EqualsRoundTrip(front, numbers);
  }

  lemma SlashForm(front: string, form: string, numbers: seq<int>)
    requires form == front + "/" && Avoids(front, '=') && numbers != [] && AllInt64(numbers)
    ensures ValidValues(NumberTexts(form + NumberList(numbers))) == numbers
  {
    hide NumberTexts, NumberList, ValidValues;
    SlashRoundTrip(front, numbers);
  }
}

/** `city.py`: the English/Farsi city table, `paginate`, the inline
    keyboards of the city picker and the routing of its callback data.
    Telegram I/O is left out: a handler is a function from the callback data
    and the user's data to the message edit it makes and the new user data.
 */
module City {
  import opened PyJson
  import opened PyText

  /** `CityNames().city_names`, in insertion order: (English, Farsi). */
  const CityTable: seq<(string, string)> := [
    ("Tehran", "تهران"),
    ("Isfahan", "اصفهان"),
    ("Shiraz", "شیراز"),
    ("Mashhad", "مشهد"),
    ("Tabriz", "تبریز"),
    ("Ahvaz", "اهواز"),
    ("Kerman", "کرمان"),
    ("Rasht", "رشت"),
    ("Yazd", "یزد"),
    ("Bandar Abbas", "بندرعباس"),
    ("Kish", "کیش"),
    ("Hamedan", "همدان"),
    ("Qazvin", "قزوین"),
    ("Zahedan", "زاهدان"),
    ("Sanandaj", "سنندج"),
    ("Khorramabad", "خرم\U{200C}آباد"),
    ("Ardabil", "اردبیل"),
    ("Urmia", "ارومیه"),
    ("Gorgan", "گرگان"),
    ("Chabahar", "چابهار")
  ]

  /** Python's `dict(pairs)[key]`: the last binding of `key` wins. */
  function Lookup(pairs: seq<(string, string)>, key: string): (r: Option<string>)
    ensures r.Some? <==> exists i :: 0 <= i < |pairs| && pairs[i].0 == key
    ensures r.Some? ==> exists i :: 0 <= i < |pairs| && pairs[i] == (key, r.value)
    decreases |pairs|
  {
    if |pairs| == 0 then None
    else if pairs[|pairs| - 1].0 == key then Some(pairs[|pairs| - 1].1)
    else Lookup(pairs[..|pairs| - 1], key)
  }

  /** `{v: k for k, v in pairs}` before it becomes a dict. */
  function Swap(pairs: seq<(string, string)>): (r: seq<(string, string)>)
    ensures |r| == |pairs|
    ensures forall i :: 0 <= i < |pairs| ==> r[i] == (pairs[i].1, pairs[i].0)
  {
    seq(|pairs|, i requires 0 <= i < |pairs| => (pairs[i].1, pairs[i].0))
  }

  /** `en` is an English name of the table. */
  predicate IsCity(en: string) {
    exists i :: 0 <= i < |CityTable| && CityTable[i].0 == en
  }

  /** `fa` is a Farsi name of the table. */
  predicate IsFarsiCity(fa: string) {
    exists i :: 0 <= i < |CityTable| && CityTable[i].1 == fa
  }

  /** `list(city_names.values())`. */
  function FarsiNames(): (r: seq<string>)
    ensures |r| == |CityTable|
    ensures forall i :: 0 <= i < |r| ==> r[i] == CityTable[i].1
    ensures forall fa :: fa in r <==> IsFarsiCity(fa)
  {
    seq(|CityTable|, i requires 0 <= i < |CityTable| => CityTable[i].1)
  }

  predicate DistinctKeys(pairs: seq<(string, string)>) {
    forall i, j :: 0 <= i < j < |pairs| ==> pairs[i].0 != pairs[j].0
  }

  /** `get_farsi_name(en_name)`. */
  function GetFarsiName(en: string): (r: Py<string>)
    ensures r.Ok? <==> IsCity(en)
    ensures r.Ok? ==> exists i :: 0 <= i < |CityTable| && CityTable[i] == (en, r.value)
    ensures r.Raise? ==> r.exc == CityNotFoundError("City '" + en + "' not found.")
  {
    match Lookup(CityTable, en)
    case Some(fa) => Ok(fa)
    case None => Raise(CityNotFoundError("City '" + en + "' not found."))
  }

  /** `get_en_name(farsi_name)`, through the reversed dictionary. */
  function GetEnName(fa: string): (r: Py<string>)
    ensures r.Ok? <==> IsFarsiCity(fa)
    ensures r.Ok? ==> exists i :: 0 <= i < |CityTable| && CityTable[i] == (r.value, fa)
    ensures r.Raise? ==> r.exc == CityNotFoundError("شهر '" + fa + "' یافت نشد.")
  {
    match Lookup(Swap(CityTable), fa)
    case Some(en) => Ok(en)
    case None => Raise(CityNotFoundError("شهر '" + fa + "' یافت نشد."))
  }

  /** With distinct keys, the lookup finds the only binding. */
  lemma {:induction false} LookupDistinct(pairs: seq<(string, string)>, i: int)
    requires DistinctKeys(pairs)
    requires 0 <= i < |pairs|
    ensures Lookup(pairs, pairs[i].0) == Some(pairs[i].1)
    decreases |pairs|
  {
    if i < |pairs| - 1 {
      LookupDistinct(pairs[..|pairs| - 1], i);
    }
  }

  /** A dict keeps the last binding of a key: the value found comes from the
      last pair with that key. */
  lemma {:induction false} LookupFindsLast(pairs: seq<(string, string)>, key: string)
    requires Lookup(pairs, key).Some?
    ensures exists i :: (0 <= i < |pairs| && pairs[i] == (key, Lookup(pairs, key).value) &&
      forall j :: i < j < |pairs| ==> pairs[j].0 != key)
    decreases |pairs|
  {
    var n := |pairs| - 1;
    var value := Lookup(pairs, key).value;
    if pairs[n].0 == key {
      assert pairs[n] == (key, value);
    } else {
      var front := pairs[..n];
      assert Lookup(front, key) == Lookup(pairs, key);
      LookupFindsLast(front, key);
      var i :| 0 <= i < |front| && front[i] == (key, value) &&
        forall j :: i < j < |front| ==> front[j].0 != key;
      forall j | i < j < |pairs|
        ensures pairs[j].0 != key
      {
        if j < n {
          assert pairs[j] == front[j];
        }
      }
      assert pairs[i] == front[i];
    }
  }

  /** The reversed comprehension binds a value exactly when some pair holds
      it, and binds it to the key of the last such pair. */
  lemma SwapReverses(pairs: seq<(string, string)>, v: string)
    ensures Lookup(Swap(pairs), v).Some? <==> exists i :: 0 <= i < |pairs| && pairs[i].1 == v
    ensures Lookup(Swap(pairs), v).Some? ==>
      exists i :: (0 <= i < |pairs| && pairs[i] == (Lookup(Swap(pairs), v).value, v) &&
        forall j :: i < j < |pairs| ==> pairs[j].1 != v)
  {
    var swapped := Swap(pairs);
    if i :| 0 <= i < |pairs| && pairs[i].1 == v {
      assert swapped[i].0 == v;
    }
    if Lookup(swapped, v).Some? {
      LookupFindsLast(swapped, v);
      var i :| 0 <= i < |swapped| && swapped[i] == (v, Lookup(swapped, v).value) &&
        forall j :: i < j < |swapped| ==> swapped[j].0 != v;
      assert pairs[i] == (Lookup(swapped, v).value, v);
    }
  }

  /** The row of each English name. Two rows whose names map to different
      positions cannot share a name, which is how distinctness is shown. */
  ghost const EnglishRow: map<string, int> := map[
    "Tehran" := 0, "Isfahan" := 1, "Shiraz" := 2, "Mashhad" := 3, "Tabriz" := 4, "Ahvaz" := 5,
    "Kerman" := 6, "Rasht" := 7, "Yazd" := 8, "Bandar Abbas" := 9, "Kish" := 10, "Hamedan" := 11,
    "Qazvin" := 12, "Zahedan" := 13, "Sanandaj" := 14, "Khorramabad" := 15, "Ardabil" := 16,
    "Urmia" := 17, "Gorgan" := 18, "Chabahar" := 19]

  /** The row of each Farsi name. */
  ghost const FarsiRow: map<string, int> := map[
    "تهران" := 0, "اصفهان" := 1, "شیراز" := 2, "مشهد" := 3, "تبریز" := 4, "اهواز" := 5,
    "کرمان" := 6, "رشت" := 7, "یزد" := 8, "بندرعباس" := 9, "کیش" := 10, "همدان" := 11,
    "قزوین" := 12, "زاهدان" := 13, "سنندج" := 14, "خرم\U{200C}آباد" := 15, "اردبیل" := 16,
    "ارومیه" := 17, "گرگان" := 18, "چابهار" := 19]

  /** The 20 English names are pairwise distinct. */
  lemma EnglishRowsFirstHalf()
    ensures forall i :: 0 <= i < 10 ==> CityTable[i].0 in EnglishRow && EnglishRow[CityTable[i].0] == i
  {
  }

  lemma EnglishRowsSecondHalf()
    ensures forall i :: 10 <= i < 20 ==> CityTable[i].0 in EnglishRow && EnglishRow[CityTable[i].0] == i
  {
  }

  lemma EnglishNamesDistinct()
    ensures DistinctKeys(CityTable)
  {
    EnglishRowsFirstHalf();
    EnglishRowsSecondHalf();
  }

  /** The 20 Farsi names are pairwise distinct. */
  lemma FarsiRowsFirstHalf()
    ensures forall i :: 0 <= i < 10 ==> CityTable[i].1 in FarsiRow && FarsiRow[CityTable[i].1] == i
  {
  }

  lemma FarsiRowsSecondHalf()
    ensures forall i :: 10 <= i < 20 ==> CityTable[i].1 in FarsiRow && FarsiRow[CityTable[i].1] == i
  {
  }

  lemma FarsiNamesDistinct()
    ensures DistinctKeys(Swap(CityTable))
  {
    FarsiRowsFirstHalf();
    FarsiRowsSecondHalf();
  }

  /** No Farsi name contains ':'. */
  lemma FarsiNamesHaveNoColon()
    ensures forall i :: 0 <= i < |CityTable| ==> ':' !in CityTable[i].1
  {
    NoColonInRows(0, 10);
    NoColonInRows(10, 20);
  }

  /** No Farsi name in rows `lo` to `hi - 1` contains ':', shown ten rows at a time. */
  lemma NoColonInRows(lo: int, hi: int)
    requires 0 <= lo <= hi <= |CityTable| && hi - lo <= 10
    ensures forall i :: lo <= i < hi ==> ':' !in CityTable[i].1
  {
  }

  /** Every row of the table is found in both directions. */
  lemma TableLookups(i: int)
    requires 0 <= i < |CityTable|
    ensures GetFarsiName(CityTable[i].0) == Ok(CityTable[i].1)
    ensures GetEnName(CityTable[i].1) == Ok(CityTable[i].0)
  {
    EnglishNamesDistinct();
    FarsiNamesDistinct();
    LookupDistinct(CityTable, i);
    LookupDistinct(Swap(CityTable), i);
  }

  /** `get_farsi_name(get_en_name(f)) == f` for every Farsi name in the table. */
  lemma FarsiRoundTrip(fa: string)
    requires IsFarsiCity(fa)
    ensures GetEnName(fa).Ok? && GetFarsiName(GetEnName(fa).value) == Ok(fa)
  {
    var i :| 0 <= i < |CityTable| && CityTable[i].1 == fa;
    TableLookups(i);
  }

  /** `get_en_name(get_farsi_name(e)) == e` for every English name in the table. */
  lemma EnglishRoundTrip(en: string)
    requires IsCity(en)
    ensures GetFarsiName(en).Ok? && GetEnName(GetFarsiName(en).value) == Ok(en)
  {
    var i :| 0 <= i < |CityTable| && CityTable[i].0 == en;
    TableLookups(i);
  }

  const CitiesPerPage := 10

  /** `paginate(items, page, items_per_page)`: the slice
      `items[page*n : page*n + n]` and whether items remain after it. */
  function Paginate<T>(items: seq<T>, page: int, perPage: int): (r: (seq<T>, bool))
    ensures r.1 <==> |items| > page * perPage + perPage
    ensures page >= 0 && perPage >= 0 ==> |r.0| <= perPage
    ensures page >= 0 && perPage >= 0 ==>
      |r.0| == Min(perPage, if |items| > page * perPage then |items| - page * perPage else 0)
    ensures page >= 0 && perPage >= 0 ==>
      forall k :: 0 <= k < |r.0| ==>
        0 <= page * perPage + k < |items| && r.0[k] == items[page * perPage + k]
  {
    var start := page * perPage;
    ProductNonnegative(page, perPage);
    SliceFromStart(items, start, perPage);
    (Slice(items, start, start + perPage), |items| > start + perPage)
  }

  /** The slice `items[start : start + n]` holds at most `n` items, those from `start` on. */
  lemma SliceFromStart<T>(items: seq<T>, start: int, perPage: int)
    ensures start >= 0 && perPage >= 0 ==>
      var p := Slice(items, start, start + perPage);
      && |p| == Min(perPage, if |items| > start then |items| - start else 0)
      && forall k :: 0 <= k < |p| ==> start + k < |items| && p[k] == items[start + k]
  {
  }

  lemma ProductNonnegative(a: int, b: int)
    ensures a >= 0 && b >= 0 ==> a * b >= 0
  {
  }

  /** Pages 0 to k, one after another. */
  function PagesThrough<T>(items: seq<T>, k: nat, perPage: int): seq<T>
  {
    (if k == 0 then [] else PagesThrough(items, k - 1, perPage)) + Paginate(items, k, perPage).0
  }

  /** Page k is the slice from `k*n` to `k*n + n`, both clamped to the length. */
  lemma PageIsSlice<T>(items: seq<T>, k: nat, perPage: int)
    requires perPage > 0
    ensures Paginate(items, k, perPage).0 == items[Min(k * perPage, |items|)..Min(k * perPage + perPage, |items|)]
  {
    ProductNonnegative(k, perPage);
  }

  /** Two adjacent clamped slices make one prefix. */
  lemma ClampedPrefix<T>(items: seq<T>, a: int, b: int)
    requires 0 <= a <= b
    ensures items[..Min(a, |items|)] + items[Min(a, |items|)..Min(b, |items|)] == items[..Min(b, |items|)]
  {
  }

  lemma {:induction false} PagesThroughIsPrefix<T>(items: seq<T>, k: nat, perPage: int)
    requires perPage > 0
    ensures PagesThrough(items, k, perPage) == items[..Min(k * perPage + perPage, |items|)]
  {
    if k == 0 {
      FirstPageIsPrefix(items, perPage);
    } else {
      PagesThroughIsPrefix(items, k - 1, perPage);
      NextPageExtendsPrefix(items, k, perPage);
    }
  }

  /** Page 0 alone is the prefix of length `n`. */
  lemma FirstPageIsPrefix<T>(items: seq<T>, perPage: int)
    requires perPage > 0
    ensures PagesThrough(items, 0, perPage) == items[..Min(0 * perPage + perPage, |items|)]
  {
    var page := Paginate(items, 0, perPage).0;
    PageIsSlice(items, 0, perPage);
    assert PagesThrough(items, 0, perPage) == [] + page;
    AppendPage(items, [], page, 0, perPage);
  }

  /** If pages 0 to k-1 are a prefix, adding page k extends it by that page. */
  lemma NextPageExtendsPrefix<T>(items: seq<T>, k: nat, perPage: int)
    requires perPage > 0 && k > 0
    requires PagesThrough(items, k - 1, perPage) == items[..Min((k - 1) * perPage + perPage, |items|)]
    ensures PagesThrough(items, k, perPage) == items[..Min(k * perPage + perPage, |items|)]
  {
    var start := k * perPage;
    var prev := PagesThrough(items, k - 1, perPage);
    var page := Paginate(items, k, perPage).0;
    PageIsSlice(items, k, perPage);
    ProductNonnegative(k, perPage);
    assert PagesThrough(items, k, perPage) == prev + page;
    PreviousPageEnds(k, perPage);
    AppendPage(items, prev, page, start, start + perPage);
  }

  /** A prefix ending at `start`, followed by the clamped slice from `start`
      to `end`, is the prefix ending at `end`. */
  lemma AppendPage<T>(items: seq<T>, prev: seq<T>, page: seq<T>, start: int, end: int)
    requires 0 <= start <= end
    requires prev == items[..Min(start, |items|)]
    requires page == items[Min(start, |items|)..Min(end, |items|)]
    ensures prev + page == items[..Min(end, |items|)]
  {
    ClampedPrefix(items, start, end);
  }

  /** Page `k - 1` ends where page `k` starts. */
  lemma PreviousPageEnds(k: int, perPage: int)
    ensures (k - 1) * perPage + perPage == k * perPage
  {
  }

  /** Following "Next" from page 0 until a page has no next page reads every
      item exactly once, in order. */
  lemma PagesCoverItems<T>(items: seq<T>, k: nat, perPage: int)
    requires perPage > 0
    requires !Paginate(items, k, perPage).1
    ensures PagesThrough(items, k, perPage) == items
  {
    PagesThroughIsPrefix(items, k, perPage);
  }

  /** Twenty cities at ten per page: page 0 has a next page, page 1 does not. */
  lemma CityPages()
    ensures |FarsiNames()| == 20
    ensures Paginate(FarsiNames(), 0, CitiesPerPage).1
    ensures !Paginate(FarsiNames(), 1, CitiesPerPage).1
    ensures PagesThrough(FarsiNames(), 1, CitiesPerPage) == FarsiNames()
  {
    PagesCoverItems(FarsiNames(), 1, CitiesPerPage);
  }

  datatype Button = Button(text: string, callbackData: string)

  type Keyboard = seq<seq<Button>>

  const SelectPrefix := "select_city:"
  const PagePrefix := "city_page:"

  function SelectData(city: string): string {
    SelectPrefix + city
  }

  function PageData(page: int): string {
    PagePrefix + IntToString(page)
  }

  /** One row per city, whose button selects that city. */
  function CityRows(cities: seq<string>): (rows: Keyboard)
    ensures |rows| == |cities|
    ensures forall i :: 0 <= i < |cities| ==> rows[i] == [Button(cities[i], SelectData(cities[i]))]
  {
    seq(|cities|, i requires 0 <= i < |cities| => [Button(cities[i], SelectData(cities[i]))])
  }

  const NextLabel := "Next"
  const PreviousLabel := "Previous"

  /** The keyboard `start_city_selection` sends: page 0, with "Next" when
      more cities follow. */
  function StartKeyboard(): (kb: Keyboard)
    ensures |kb| == CitiesPerPage + 1
    ensures forall i :: 0 <= i < CitiesPerPage ==>
      kb[i] == [Button(CityTable[i].1, SelectData(CityTable[i].1))]
    ensures kb[CitiesPerPage] == [Button(NextLabel, PageData(1))]
  {
    var (cities, hasNext) := Paginate(FarsiNames(), 0, CitiesPerPage);
    CityRows(cities) + (if hasNext then [[Button(NextLabel, PageData(0 + 1))]] else [])
  }

  /** The keyboard the "city_page:" handler shows for `page`: the page's
      cities, then "Next" iff more cities follow, then "Previous" iff page > 0. */
  function PageKeyboard(page: int): (kb: Keyboard)
    ensures var (cities, hasNext) := Paginate(FarsiNames(), page, CitiesPerPage);
      && |kb| == |cities| + (if hasNext then 1 else 0) + (if page > 0 then 1 else 0)
      && kb[..|cities|] == CityRows(cities)
      && (hasNext ==> kb[|cities|] == [Button(NextLabel, PageData(page + 1))])
      && (page > 0 ==> kb[|kb| - 1] == [Button(PreviousLabel, PageData(page - 1))])
  {
    var (cities, hasNext) := Paginate(FarsiNames(), page, CitiesPerPage);
    CityRows(cities)
      + (if hasNext then [[Button(NextLabel, PageData(page + 1))]] else [])
      + (if page > 0 then [[Button(PreviousLabel, PageData(page - 1))]] else [])
  }

  const StartPrompt := "لطفاً شهر مورد نظر خود را انتخاب کنید:"
  const PagePrompt := "لطفاً شهر مورد نظرتون رو انتخاب کنید:"
  const PhotoPrompt := "لطفاً یک عکس از فضای مورد نظرتون ارسال کنید."

  /** `context.user_data`, as far as the city picker touches it. */
  datatype UserData = UserData(selectedCity: Option<string>)

  /** A text with its keyboard, as the picker shows it: sent as a new message
      by `start_city_selection` (`reply_text`), or put in place of the pressed
      keyboard's message by the callback handler (`query.edit_message_text`).
      An empty keyboard stands for no markup. */
  datatype Message = Message(text: string, keyboard: Keyboard)

  /** `start_city_selection`: a new message with the start prompt and the
      page-0 keyboard, which is the keyboard the "city_page:0" callback shows. */
  function StartCitySelection(): (m: Message)
    ensures m.keyboard == PageKeyboard(0)
    ensures m.keyboard[..CitiesPerPage] == CityRows(FarsiNames()[..CitiesPerPage])
  {
    Message(StartPrompt, StartKeyboard())
  }

  /** What one callback did: the message it edited in, if any, and the user data after it. */
  datatype Handled = Handled(edit: Option<Message>, user: UserData)

  /** `data.split(":")[1]`. */
  function SecondField(data: string): Py<string>
  {
    var parts := Split(data, ':');
    if |parts| < 2 then Raise(IndexError) else Ok(parts[1])
  }

  /** Text that starts with a colon-free head and a colon has a second field. */
  lemma PrefixedHasSecondField(data: string, head: string)
    requires ':' !in head && StartsWith(data, head + ":")
    ensures SecondField(data).Ok?
  {
    assert data == head + [':'] + data[|head| + 1..];
    SplitAtFirst(head, ':', data[|head| + 1..]);
  }

  /** `handle_city_selection`: route the callback data by its prefix. A page
      number that `int()` rejects raises `ValueError`, which nothing catches. */
  function HandleCitySelection(data: string, user: UserData): (r: Py<Handled>)
    ensures !StartsWith(data, PagePrefix) && !StartsWith(data, SelectPrefix) ==>
      r == Ok(Handled(None, user))
    ensures r.Ok? && r.value.user != user ==>
      StartsWith(data, SelectPrefix) && r.value.user.selectedCity.Some?
      && IsCity(r.value.user.selectedCity.value)
    ensures r.Raise? ==> StartsWith(data, PagePrefix) && r.exc == ValueError
  {
    if StartsWith(data, PagePrefix) then
      PrefixedHasSecondField(data, "city_page");
      var field := SecondField(data).value;
      var page :- ParseInt(field);
      Ok(Handled(Some(Message(PagePrompt, PageKeyboard(page))), user))
    else if StartsWith(data, SelectPrefix) then
      PrefixedHasSecondField(data, "select_city");
      var farsi := SecondField(data).value;
      match GetEnName(farsi)
      case Ok(en) => Ok(Handled(Some(Message(PhotoPrompt, [])), user.(selectedCity := Some(en))))
      case Raise(e) => Ok(Handled(Some(Message(e.message, [])), user))
    else
      Ok(Handled(None, user))
  }

  /** The city name after "select_city:" comes back whole, since it holds no ':'. */
  lemma SecondFieldOfSelect(city: string)
    requires ':' !in city
    ensures SecondField(SelectData(city)) == Ok(city)
  {
    assert SelectData(city) == "select_city" + [':'] + city;
    SplitAtFirst("select_city", ':', city);
    SplitWithoutSeparator(city, ':');
  }

  /** The page number after "city_page:" parses back to itself. */
  lemma SecondFieldOfPage(page: int)
    ensures SecondField(PageData(page)) == Ok(IntToString(page))
  {
    assert PageData(page) == "city_page" + [':'] + IntToString(page);
    SplitAtFirst("city_page", ':', IntToString(page));
    SplitWithoutSeparator(IntToString(page), ':');
  }

  /** Choosing a city button stores that city's English name. */
  lemma SelectingTableCity(i: int, user: UserData)
    requires 0 <= i < |CityTable|
    ensures HandleCitySelection(SelectData(CityTable[i].1), user) ==
      Ok(Handled(Some(Message(PhotoPrompt, [])), UserData(Some(CityTable[i].0))))
  {
    var (en, fa) := CityTable[i];
    FarsiNamesHaveNoColon();
    assert ':' !in fa;
    TableLookups(i);
    SelectingKnownName(fa, en, user);
  }

  lemma SelectingKnownName(fa: string, en: string, user: UserData)
    requires ':' !in fa && GetEnName(fa) == Ok(en)
    ensures HandleCitySelection(SelectData(fa), user) ==
      Ok(Handled(Some(Message(PhotoPrompt, [])), UserData(Some(en))))
  {
    SecondFieldOfSelect(fa);
    FirstCharacterDiffers(SelectData(fa), PagePrefix);
    StartsWithConcat(SelectPrefix, fa);
  }

  /** A Farsi name outside the table leaves the selection alone and shows the
      lookup's error text. */
  lemma SelectingUnknownCity(fa: string, user: UserData)
    requires ':' !in fa && !IsFarsiCity(fa)
    ensures HandleCitySelection(SelectData(fa), user) ==
      Ok(Handled(Some(Message("شهر '" + fa + "' یافت نشد.", [])), user))
  {
    SecondFieldOfSelect(fa);
    FirstCharacterDiffers(SelectData(fa), PagePrefix);
    StartsWithConcat(SelectPrefix, fa);
  }

  /** "Next" and "Previous" lead to the keyboard of the page they name, and
      the selection is untouched. */
  lemma TurningToPage(page: int, user: UserData)
    ensures HandleCitySelection(PageData(page), user) ==
      Ok(Handled(Some(Message(PagePrompt, PageKeyboard(page))), user))
  {
    SecondFieldOfPage(page);
    ParseIntRoundTrip(page);
    StartsWithConcat(PagePrefix, IntToString(page));
  }

  /** Every button the picker shows on page 0 is handled without raising. */
  lemma StartButtonsAreHandled(row: int, user: UserData)
    requires 0 <= row < |StartKeyboard()|
    ensures HandleCitySelection(StartKeyboard()[row][0].callbackData, user).Ok?
    ensures row < CitiesPerPage ==>
      StartKeyboard()[row][0].text == CityTable[row].1 &&
      HandleCitySelection(StartKeyboard()[row][0].callbackData, user) ==
        Ok(Handled(Some(Message(PhotoPrompt, [])), UserData(Some(CityTable[row].0))))
  {
    if row < CitiesPerPage {
      SelectingTableCity(row, user);
    } else {
      TurningToPage(1, user);
    }
  }
}

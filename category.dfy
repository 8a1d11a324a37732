/** The category table of the tracker (Category/Category.go): 28 ids with their
    display names, a lookup by id and a search by name. */
module Category {
  import opened Wrappers

  /** The names initCategories stores, for ids 1 to 28 in order. */
  const NameList: seq<string> := [
    "A-book",
    "Album/Sampler",
    "Musik Pack",
    "Musik DVD/Vids",
    "Doku HD",
    "Doku HD Pack",
    "Doku SD",
    "Doku SD Pack",
    "Nintendo",
    "PC",
    "PlayStation",
    "XboX",
    "eBooks",
    "Mobilgeräte",
    "Software",
    "DVDR",
    "1080p",
    "720p",
    "h264/x264",
    "Xvid",
    "XXX",
    "Serie HD",
    "Serie HD Pack",
    "Serie SD",
    "Serie SD Pack",
    "Sport",
    "TV",
    "3-D"
  ]

  /** The map initCategories fills: id i names NameList[i - 1]. */
  const Names: map<int, string> := map id | 1 <= id <= 28 :: NameList[id - 1]

  lemma NamesDomain()
    ensures forall id :: id in Names <==> 1 <= id <= 28
  {
  }

  /** No two ids share a name. */
  lemma NamesDistinct()
    ensures forall i, j :: i in Names && j in Names && Names[i] == Names[j] ==> i == j
  {
    DistinctFrom0();
    DistinctFrom2();
    DistinctFrom4();
    DistinctFrom6();
    DistinctFrom8();
    DistinctFrom12();
    DistinctFrom16();
    DistinctFrom20();
    DistinctFrom24();
    forall i, j | i in Names && j in Names && i < j ensures Names[i] != Names[j] {
      assert Names[i] == NameList[i - 1] && Names[j] == NameList[j - 1];
    }
  }

  lemma DistinctFrom0()
    ensures forall i, j :: 0 <= i < 2 && i < j < 28 ==> NameList[i] != NameList[j]
  {
  }

  lemma DistinctFrom2()
    ensures forall i, j :: 2 <= i < 4 && i < j < 28 ==> NameList[i] != NameList[j]
  {
  }

  lemma DistinctFrom4()
    ensures forall i, j :: 4 <= i < 6 && i < j < 28 ==> NameList[i] != NameList[j]
  {
  }

  lemma DistinctFrom6()
    ensures forall i, j :: 6 <= i < 8 && i < j < 28 ==> NameList[i] != NameList[j]
  {
  }

  lemma DistinctFrom8()
    ensures forall i, j :: 8 <= i < 12 && i < j < 28 ==> NameList[i] != NameList[j]
  {
  }

  lemma DistinctFrom12()
    ensures forall i, j :: 12 <= i < 16 && i < j < 28 ==> NameList[i] != NameList[j]
  {
  }

  lemma DistinctFrom16()
    ensures forall i, j :: 16 <= i < 20 && i < j < 28 ==> NameList[i] != NameList[j]
  {
  }

  lemma DistinctFrom20()
    ensures forall i, j :: 20 <= i < 24 && i < j < 28 ==> NameList[i] != NameList[j]
  {
  }

  lemma DistinctFrom24()
    ensures forall i, j :: 24 <= i < 28 && i < j < 28 ==> NameList[i] != NameList[j]
  {
  }

  /** ToString's answer for an id. */
  function NameOf(id: int): (r: Result<string, string>)
    ensures r.Ok? <==> 1 <= id <= 28
    ensures r.Err? ==> r.error == "category id not found"
  {
    if id in Names then Ok(Names[id]) else Err("category id not found")
  }

  /** The id carrying `name`, looking at the ids from `i` upwards. */
  function IdFrom(name: string, i: int): (r: Option<int>)
    requires 1 <= i <= 29
    ensures r.Some? ==> i <= r.value <= 28 && Names[r.value] == name
    ensures r.None? ==> forall k :: i <= k <= 28 ==> Names[k] != name
    decreases 29 - i
  {
    if i == 29 then None
    else if Names[i] == name then Some(i)
    else IdFrom(name, i + 1)
  }

  /** ToInt's answer for a name. */
  function IdOf(name: string): (r: Option<int>)
    ensures r.Some? ==> r.value in Names && Names[r.value] == name
    ensures r.None? ==> forall k :: k in Names ==> Names[k] != name
  {
    IdFrom(name, 1)
  }

  /** ToInt(ToString(id)) == id for every id in the table. */
  lemma IdRoundTrip(id: int)
    requires 1 <= id <= 28
    ensures NameOf(id).Ok? && IdOf(NameOf(id).value) == Some(id)
  {
    NamesDistinct();
  }

  /** ToString(ToInt(name)) == name for every name ToInt finds. */
  lemma NameRoundTrip(name: string)
    requires IdOf(name).Some?
    ensures NameOf(IdOf(name).value) == Ok(name)
  {
  }

  /** The global category map, filled once. */
  class Categories {
    var categories: map<int, string>

    constructor()
      ensures categories == map[]
    {
      categories := map[];
    }

    /** Empty before the first call of initCategories, the full table after. */
    predicate Valid()
      reads this
    {
      categories == map[] || categories == Names
    }

    /** initCategories: a filled map is left alone; an empty one gets the 28 entries. */
    method Init()
      modifies this
      requires Valid()
      ensures categories == Names
      ensures |old(categories)| > 0 ==> categories == old(categories)
    {
      if |categories| > 0 {
        return;
      }
      categories := Names;
    }

    /** ToInt: walks the map in whatever order it yields and returns the first id
        whose name matches. Names are distinct, so every order gives IdOf(name). */
    method ToInt(name: string) returns (id: int, err: Option<string>)
      modifies this
      requires Valid()
      ensures categories == Names
      ensures err.None? <==> IdOf(name).Some?
      ensures err.None? ==> id == IdOf(name).value
      ensures err.Some? ==> id == 0 && err.value == "category name not found"
    {
      Init();
      NamesDistinct();
      var keys := categories.Keys;
      while keys != {}
        invariant keys <= categories.Keys
        invariant forall k :: k in categories && k !in keys ==> categories[k] != name
        decreases |keys|
      {
        var k :| k in keys;
        if categories[k] == name {
          return k, None;
        }
        keys := keys - {k};
      }
      return 0, Some("category name not found");
    }

    /** ToString: the name of an id, or an error for an id outside the table. */
    method ToString(id: int) returns (name: string, err: Option<string>)
      modifies this
      requires Valid()
      ensures categories == Names
      ensures err.None? <==> NameOf(id).Ok?
      ensures err.None? ==> name == NameOf(id).value
      ensures err.Some? ==> name == "" && err.value == NameOf(id).error
    {
      Init();
      if id in categories {
        return categories[id], None;
      }
      return "", Some("category id not found");
    }
  }
}

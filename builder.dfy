/** Builder: a cashier (the director) always has a chef (the builder) cook
    soup, vegetable and meat, in that order, into a food product; which chef
    is picked decides what the courses are. */
module BuilderPattern {
  import opened Wrappers

  /** `courses` after AddCourse(sth): the first course (or any course added
      while the list is still the empty string) replaces it, later ones are
      appended after " & ". */
  function AddedCourse(courses: string, sth: string): (r: string)
    ensures courses == "" ==> r == sth
    ensures courses != "" ==> r == courses + " & " + sth
  {
    if courses == "" then sth else courses + " & " + sth
  }

  /** Courses joined with " & " between neighbours. */
  function Join(cs: seq<string>): string
    decreases |cs|
  {
    if |cs| == 0 then "" else if |cs| == 1 then cs[0] else Join(cs[..|cs| - 1]) + " & " + cs[|cs| - 1]
  }

  /** Adding non-empty courses one by one to a new product lists them with
      " & " between neighbours, in the order they were added. */
  lemma {:induction false} AddingJoins(cs: seq<string>, sth: string)
    requires forall i :: 0 <= i < |cs| ==> cs[i] != ""
    ensures AddedCourse(Join(cs), sth) == Join(cs + [sth])
    ensures |cs| > 0 ==> Join(cs) != ""
    decreases |cs|
  {
    if |cs| > 1 {
      AddingJoins(cs[..|cs| - 1], cs[|cs| - 1]);
      assert (cs + [sth])[..|cs|] == cs;
    } else if |cs| == 1 {
      assert (cs + [sth])[..1] == cs;
    }
  }

  /** An empty course added while the list is still empty is lost as a
      separator: the next course starts the list afresh. */
  lemma EmptyCourseVanishes(sth: string)
    ensures AddedCourse(AddedCourse("", ""), sth) == sth
  {
  }

  /** What GetTaste reports for a food name and its courses. */
  function Taste(foodName: string, courses: string): string {
    "[" + foodName + "] => " + courses
  }

  /** The taste names the food in brackets and ends with the courses. */
  lemma TasteShows(foodName: string, courses: string)
    ensures var r := Taste(foodName, courses);
            && |r| == |foodName| + |courses| + 6
            && "[" + foodName + "] => " <= r && r[|r| - |courses|..] == courses
  {
  }

  class ProductFood {
    const foodName: string
    var courses: string

    constructor (name: string)
      ensures foodName == name && courses == ""
    {
      foodName := name;
      courses := "";
    }

    method AddCourse(sth: string)
      modifies this
      ensures courses == AddedCourse(old(courses), sth)
    {
      if courses == "" {
        courses := sth;
      } else {
        courses := courses + " & " + sth;
      }
    }

    function GetTaste(): string
      reads this
    {
      Taste(foodName, courses)
    }
  }

  /** The two concrete chefs; neither keeps any state that matters. */
  datatype Chef = ChineseChef | AmericanChef

  function Soup(chef: Chef): string {
    match chef
    case ChineseChef => "Chinese soup"
    case AmericanChef => "American soup"
  }

  function Vegetable(chef: Chef): string {
    match chef
    case ChineseChef => "Chinese vegetable"
    case AmericanChef => "American vegetable"
  }

  function Meat(chef: Chef): string {
    match chef
    case ChineseChef => "Chinese meat"
    case AmericanChef => "American meat"
  }

  /** The three courses a chef cooks, in the director's order. */
  function Menu(chef: Chef): (r: seq<string>)
    ensures |r| == 3 && forall i :: 0 <= i < 3 ==> r[i] != ""
  {
    [Soup(chef), Vegetable(chef), Meat(chef)]
  }

  method CookSoup(chef: Chef, food: ProductFood)
    modifies food
    ensures food.courses == AddedCourse(old(food.courses), Soup(chef))
  {
    food.AddCourse(Soup(chef));
  }

  method CookVegetable(chef: Chef, food: ProductFood)
    modifies food
    ensures food.courses == AddedCourse(old(food.courses), Vegetable(chef))
  {
    food.AddCourse(Vegetable(chef));
  }

  method CookMeat(chef: Chef, food: ProductFood)
    modifies food
    ensures food.courses == AddedCourse(old(food.courses), Meat(chef))
  {
    food.AddCourse(Meat(chef));
  }

  /** The cashier's constructor: soup, then vegetable, then meat. On a new
      product that lists the chef's menu in that order. */
  method Direct(chef: Chef, food: ProductFood)
    modifies food
    ensures food.courses == AddedCourse(AddedCourse(AddedCourse(old(food.courses), Soup(chef)), Vegetable(chef)), Meat(chef))
    ensures old(food.courses) == "" ==> food.courses == Join(Menu(chef))
  {
    ghost var before := food.courses;
    CookSoup(chef, food);
    CookVegetable(chef, food);
    CookMeat(chef, food);
    if before == "" {
      MenuJoined(chef);
    }
  }

  /** The menu cooked into a new product, course by course, is the joined
      menu. */
  lemma MenuJoined(chef: Chef)
    ensures AddedCourse(AddedCourse(AddedCourse("", Soup(chef)), Vegetable(chef)), Meat(chef)) == Join(Menu(chef))
  {
    var m := Menu(chef);
    assert Join([m[0]]) == m[0];
    AddingJoins([m[0]], m[1]);
    assert [m[0]] + [m[1]] == m[..2];
    AddingJoins(m[..2], m[2]);
    assert m[..2] + [m[2]] == m;
  }

  /** The chef a customer tag selects; other tags select none. */
  function ChefFor(tag: string): (r: Option<Chef>)
    ensures r == Some(ChineseChef) <==> tag == "Chinese"
    ensures r == Some(AmericanChef) <==> tag == "American"
  {
    if tag == "Chinese" then Some(ChineseChef)
    else if tag == "American" then Some(AmericanChef)
    else None
  }

  /** What is printed for a served customer. */
  function ServeLine(tag: string, chef: Chef): string {
    "Serve " + Taste(tag + " food", Join(Menu(chef))) + " to " + tag
  }

  /** The lines printed for a list of customer tags, in list order, skipping
      tags that select no chef. */
  function Served(tags: seq<string>): seq<string>
    decreases |tags|
  {
    if |tags| == 0 then []
    else
      var rest := Served(tags[..|tags| - 1]);
      var last := tags[|tags| - 1];
      match ChefFor(last)
      case None => rest
      case Some(chef) => rest + [ServeLine(last, chef)]
  }

  /** Serving two lists in turn prints what serving each prints, one after
      the other. */
  lemma {:induction false} ServedConcat(a: seq<string>, b: seq<string>)
    ensures Served(a + b) == Served(a) + Served(b)
    decreases |b|
  {
    if |b| == 0 {
      assert a + b == a;
    } else {
      assert (a + b)[..|a + b| - 1] == a + b[..|b| - 1];
      ServedConcat(a, b[..|b| - 1]);
    }
  }

  /** One line per recognised tag, none for the others. */
  lemma ServedOne(tag: string)
    ensures ChefFor(tag).None? ==> Served([tag]) == []
    ensures ChefFor(tag).Some? ==> Served([tag]) == [ServeLine(tag, ChefFor(tag).value)]
  {
    assert [tag][..0] == [];
  }

  /** How many tags select a chef. */
  function Recognised(tags: seq<string>): (n: nat)
    ensures n <= |tags|
    decreases |tags|
  {
    if |tags| == 0 then 0 else Recognised(tags[..|tags| - 1]) + (if ChefFor(tags[|tags| - 1]).Some? then 1 else 0)
  }

  lemma {:induction false} ServedCount(tags: seq<string>)
    ensures |Served(tags)| == Recognised(tags)
    decreases |tags|
  {
    if |tags| > 0 {
      ServedCount(tags[..|tags| - 1]);
    }
  }

  /** The serving loop of main over a list of tags already read: a new
      product named after the tag, the director with the selected chef, one
      printed line; unknown tags are skipped. */
  method Serve(tags: seq<string>) returns (console: seq<string>)
    ensures console == Served(tags)
  {
    console := [];
    var i := 0;
    while i < |tags|
      invariant 0 <= i <= |tags|
      invariant console == Served(tags[..i])
    {
      assert tags[..i + 1][..i] == tags[..i];
      var selected := ChefFor(tags[i]);
      if selected.Some? {
        var food := new ProductFood(tags[i] + " food");
        Direct(selected.value, food);
        console := console + ["Serve " + food.GetTaste() + " to " + tags[i]];
      }
      i := i + 1;
    }
    assert tags[..i] == tags;
  }

  /** The Chinese customer's dinner: "[Chinese food] => Chinese soup &
      Chinese vegetable & Chinese meat", written in pieces. */
  lemma ChineseDinner()
    ensures Taste("Chinese food", Join(Menu(ChineseChef))) ==
            "[Chinese food] => " + "Chinese soup" + " & " + "Chinese vegetable" + " & " + "Chinese meat"
  {
    assert Join(Menu(ChineseChef)) == "Chinese soup" + " & " + "Chinese vegetable" + " & " + "Chinese meat";
  }

  /** The American customer's dinner, likewise. */
  lemma AmericanDinner()
    ensures Taste("American food", Join(Menu(AmericanChef))) ==
            "[American food] => " + "American soup" + " & " + "American vegetable" + " & " + "American meat"
  {
    assert Join(Menu(AmericanChef)) == "American soup" + " & " + "American vegetable" + " & " + "American meat";
  }

  /** A tag list with an unknown tag in the middle: the known customers are
      served in list order and the unknown one is skipped. */
  lemma SkipsUnknown()
    ensures Served(["Chinese", "Korean", "American"]) == [ServeLine("Chinese", ChineseChef), ServeLine("American", AmericanChef)]
  {
    ServedOne("Chinese");
    ServedOne("Korean");
    ServedOne("American");
    ServedConcat(["Chinese"], ["Korean"]);
    ServedConcat(["Chinese", "Korean"], ["American"]);
    assert ["Chinese"] + ["Korean"] == ["Chinese", "Korean"];
    assert ["Chinese", "Korean"] + ["American"] == ["Chinese", "Korean", "American"];
  }
}

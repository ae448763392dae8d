/**
 * The technology showcase: one group of cards per category, in the order of the category list,
 * each holding the technologies of that category in their order in the list.
 */
module TechShowcase {
  import opened SiteContent
  import opened Strings
  import opened CategoryFilter

  datatype Technology = Technology(name: string, category: string, color: string)

  const Technologies: seq<Technology> := [
    Technology("React", "Frontend", "text-cyan-400"),
    Technology("Angular", "Frontend", "text-red-400"),
    Technology("Vue.js", "Frontend", "text-green-400"),
    Technology("Node.js", "Backend", "text-green-500"),
    Technology("Python", "Backend", "text-yellow-400"),
    Technology("Java", "Backend", "text-orange-400"),
    Technology("Go", "Backend", "text-blue-400"),
    Technology("PHP", "Backend", "text-purple-400"),
    Technology("Flutter", "Mobile", "text-blue-500"),
    Technology("React Native", "Mobile", "text-cyan-500"),
    Technology("Swift", "Mobile", "text-orange-500"),
    Technology("Kotlin", "Mobile", "text-purple-500"),
    Technology("TensorFlow", "AI/ML", "text-orange-400"),
    Technology("PyTorch", "AI/ML", "text-red-500"),
    Technology("OpenAI", "AI/ML", "text-green-500"),
    Technology("Arduino", "IoT", "text-teal-400"),
    Technology("Raspberry Pi", "IoT", "text-pink-400"),
    Technology("MQTT", "IoT", "text-purple-400"),
    Technology("MongoDB", "Database", "text-green-500"),
    Technology("PostgreSQL", "Database", "text-blue-400"),
    Technology("MySQL", "Database", "text-blue-500"),
    Technology("Redis", "Database", "text-red-400")
  ]

  const Categories: seq<string> := ["Frontend", "Backend", "Mobile", "AI/ML", "IoT", "Database"]

  function TechCategory(t: Technology): string { t.category }

  /** The cards of each section, one section per category in the order of `Categories`. */
  function TechGroups(): (r: seq<seq<Technology>>)
    ensures |r| == |Categories|
    ensures forall i :: 0 <= i < |r| ==> r[i] == FilterBy(Technologies, TechCategory, Categories[i])
  {
    Groups(Technologies, TechCategory, Categories)
  }

  /** The six categories are distinct, so no section repeats. */
  lemma CategoriesDistinct()
    ensures Distinct(Categories)
  {
    var c := Categories;
    forall i, j | 0 <= i < j < 6 ensures c[i] != c[j] {
      if i == 0 && j == 5 {
        assert c[0][0] != c[5][0];
      }
    }
  }

  /** Every technology's category is one of the six. */
  lemma EveryCategoryListed()
    ensures |Technologies| == 22
    ensures forall i :: 0 <= i < |Technologies| ==> Technologies[i].category in Categories
  {
    forall i | 0 <= i < 22 ensures Technologies[i].category in Categories {
      if i == 0 {} else if i == 1 {} else if i == 2 {} else if i == 3 {} else if i == 4 {} else if i == 5 {} else if i == 6 {} else if i == 7 {} else if i == 8 {} else if i == 9 {} else if i == 10 {} else if i == 11 {} else if i == 12 {} else if i == 13 {} else if i == 14 {} else if i == 15 {} else if i == 16 {} else if i == 17 {} else if i == 18 {} else if i == 19 {} else if i == 20 {} else {}
    }
  }

  /**
   * The section of a category holds exactly its technologies, in list order, and every
   * technology is on exactly one card: the sections together hold 22 cards.
   */
  lemma ShowcaseGroups(t: Technology)
    ensures forall i :: 0 <= i < |Categories| ==>
      (t in TechGroups()[i] <==> t in Technologies && t.category == Categories[i])
    ensures forall i :: 0 <= i < |Categories| ==> IsSubsequence(TechGroups()[i], Technologies)
    ensures TotalSize(TechGroups()) == |Technologies| == 22
    ensures t in Technologies ==> exists i :: 0 <= i < |Categories| && t in TechGroups()[i]
  {
    forall i | 0 <= i < |Categories|
      ensures t in TechGroups()[i] <==> t in Technologies && t.category == Categories[i]
      ensures IsSubsequence(TechGroups()[i], Technologies)
    {
      FilterMembership(Technologies, TechCategory, Categories[i], t);
      FilterIsSubsequence(Technologies, TechCategory, Categories[i]);
    }
    CategoriesDistinct();
    EveryCategoryListed();
    GroupsPartition(Technologies, TechCategory, Categories);
    if t in Technologies {
      EntryInOneGroup(Technologies, TechCategory, Categories, t);
    }
  }

  /** The letter on a card's avatar: the first character of the name, or nothing for an empty name. */
  function Avatar(t: Technology): (a: string)
    ensures t.name != "" ==> a == [t.name[0]]
    ensures t.name == "" ==> a == ""
  {
    CharAt0(t.name)
  }
}

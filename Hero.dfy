/**
  * The two computed values of the landing section (src/components/Hero.tsx):
  * the owner's name cut into a first and a last part at the first space,
  * and the skills ticker, which lists every skill of every category and then
  * the whole list once more so that the scroll can loop.
  */
module Hero {
  import opened JsStrings
  import Data

  datatype NameParts = NameParts(first: string, last: string)

  /** `name.split(' ')`, then the first piece and the rest re-joined with
      single spaces: the first name is a space-free prefix of the name. */
  function SplitName(name: string): (r: NameParts)
    ensures |r.first| <= |name| && r.first == name[..|r.first|] && ' ' !in r.first
  {
    var parts := Split(name, ' ');
    SplitFirstPiece(name, ' ');
    NameParts(parts[0], Join(parts[1..], " "))
  }

  /** The first name is the text before the first space: it is either all
      of the name or followed by a space. */
  lemma FirstNameBeforeSpace(name: string)
    ensures var first := SplitName(name).first;
      |first| < |name| ==> name[|first|] == ' '
  {
    SplitFirstPiece(name, ' ');
  }

  /** A name with a space is put back together by first + " " + last. */
  lemma NameRoundTrip(name: string)
    requires ' ' in name
    ensures SplitName(name).first + " " + SplitName(name).last == name
  {
    var parts := Split(name, ' ');
    SplitPieces(name, ' ');
    SplitJoin(name, ' ');
    assert Join(parts, " ") == parts[0] + " " + Join(parts[1..], " ");
  }

  /** A name without a space is all first name. */
  lemma NameWithoutSpace(name: string)
    requires ' ' !in name
    ensures SplitName(name) == NameParts(name, "")
  {
    SplitPieces(name, ' ');
  }

  /** Cut at the first space: the text before it and the text after it. */
  lemma SplitAtFirstSpace(name: string, k: nat)
    requires k < |name| && name[k] == ' ' && ' ' !in name[..k]
    ensures SplitName(name) == NameParts(name[..k], name[k + 1..])
  {
    var first := SplitName(name).first;
    FirstNameBeforeSpace(name);
    assert first == name[..k];
    NameRoundTrip(name);
    assert name == name[..k] + " " + name[k + 1..];
  }

  /** The site's owner is shown as "Sai" and "Teja Meka". */
  lemma OwnerName()
    ensures SplitName(Data.PersonalInfo.name) == NameParts("Sai", "Teja Meka")
  {
    assert Data.PersonalInfo.name == "Sai Teja Meka";
    SplitThreeWordName();
  }

  lemma SplitThreeWordName()
    ensures SplitName("Sai Teja Meka") == NameParts("Sai", "Teja Meka")
  {
    var name := "Sai Teja Meka";
    assert name[..3] == "Sai" && name[4..] == "Teja Meka";
    SplitAtFirstSpace(name, 3);
  }

  /** `SKILLS.flatMap(s => s.items)`: as many entries as the categories
      have together. */
  function AllSkills(skills: seq<Data.SkillCategory>): (r: seq<string>)
    ensures |r| == TotalItems(skills)
  {
    if skills == [] then [] else skills[0].items + AllSkills(skills[1..])
  }

  /** The number of skills over all categories. */
  function TotalItems(skills: seq<Data.SkillCategory>): nat
  {
    if skills == [] then 0 else |skills[0].items| + TotalItems(skills[1..])
  }

  /** The flattened list holds exactly the skills of the categories. */
  lemma {:induction false} AllSkillsExact(skills: seq<Data.SkillCategory>, x: string)
    ensures x in AllSkills(skills) <==> exists k :: 0 <= k < |skills| && x in skills[k].items
  {
    if skills != [] {
      AllSkillsExact(skills[1..], x);
      if x in AllSkills(skills[1..]) {
        var k :| 0 <= k < |skills[1..]| && x in skills[1..][k].items;
        assert x in skills[k + 1].items;
      }
      if exists k :: 0 <= k < |skills| && x in skills[k].items {
        var k :| 0 <= k < |skills| && x in skills[k].items;
        if k > 0 {
          assert x in skills[1..][k - 1].items;
        }
      }
    }
  }

  /** Flattening keeps the categories' order: the list of a concatenation
      is the list of the first part followed by that of the second. */
  lemma {:induction false} AllSkillsAppend(a: seq<Data.SkillCategory>, b: seq<Data.SkillCategory>)
    ensures AllSkills(a + b) == AllSkills(a) + AllSkills(b)
  {
    if a != [] {
      assert (a + b)[0] == a[0];
      assert (a + b)[1..] == a[1..] + b;
      AllSkillsAppend(a[1..], b);
      calc {
        AllSkills(a + b);
        a[0].items + AllSkills(a[1..] + b);
        a[0].items + (AllSkills(a[1..]) + AllSkills(b));
        AllSkills(a) + AllSkills(b);
      }
    } else {
      assert a + b == b;
    }
  }

  /** One category flattens to its own item list, in its own order. */
  lemma AllSkillsSingle(s: Data.SkillCategory)
    ensures AllSkills([s]) == s.items
  {
    assert [s][1..] == [];
  }

  /** The ticker: the flattened list, written out twice. */
  function Ticker(skills: seq<Data.SkillCategory>): (t: seq<string>)
    ensures |t| == 2 * |AllSkills(skills)|
    ensures t[..|AllSkills(skills)|] == t[|AllSkills(skills)|..] == AllSkills(skills)
  {
    AllSkills(skills) + AllSkills(skills)
  }

  /** The site's ticker shows 56 entries: the items of the four categories
      of seven, in category order, twice. */
  lemma SiteTicker()
    ensures TotalItems(Data.Skills) == 28
    ensures |Ticker(Data.Skills)| == 56
    ensures AllSkills(Data.Skills) ==
      Data.Skills[0].items + Data.Skills[1].items + Data.Skills[2].items + Data.Skills[3].items
  {
    var k := Data.Skills;
    assert k == [k[0]] + [k[1]] + [k[2]] + [k[3]];
    AllSkillsAppend([k[0]] + [k[1]] + [k[2]], [k[3]]);
    AllSkillsAppend([k[0]] + [k[1]], [k[2]]);
    AllSkillsAppend([k[0]], [k[1]]);
    AllSkillsSingle(k[0]);
    AllSkillsSingle(k[1]);
    AllSkillsSingle(k[2]);
    AllSkillsSingle(k[3]);
  }
}

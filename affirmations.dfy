/** The affirmations page (src/pages/Affirmations.tsx): ten affirmations drawn
    from a fixed list of forty, a duplicate-free list of favourites kept with a
    star button on each card, and a switch between all and favourites. */
module Affirmations {
  import opened Common

  const AllAffirmations: seq<string> := [
    "You are worthy of love and kindness, exactly as you are today.",
    "Your feelings are valid, and it's okay to take things one step at a time.",
    "You have survived 100% of your difficult days so far - you're stronger than you know.",
    "It's okay to rest. It's okay to take breaks. You don't have to be productive all the time.",
    "You are not defined by your mistakes. Every day is a chance to grow and learn.",
    "Your mental health matters. Taking care of yourself is not selfish.",
    "You don't have to be perfect. You just have to be you, and that's enough.",
    "Progress isn't always visible. Small steps forward are still progress.",
    "You have the power to create positive changes in your life, one choice at a time.",
    "Your story isn't over yet. There are beautiful chapters still to be written.",
    "You are allowed to feel proud of yourself for the little things.",
    "Bad days don't last, but resilient people like you do.",
    "You deserve compassion, especially from yourself.",
    "Your voice matters. Your thoughts and feelings are important.",
    "You are growing and learning, even when it doesn't feel like it.",
    "It's okay to ask for help. Reaching out is a sign of strength, not weakness.",
    "You are capable of handling whatever today brings.",
    "Your past does not determine your future. You have the power to change your story.",
    "You are enough, right here, right now, just as you are.",
    "Every breath you take is a reminder that you have purpose and value.",
    "You have unique gifts and talents that the world needs.",
    "It's okay to say no to things that don't serve your wellbeing.",
    "You are worthy of good things happening to you.",
    "Your struggles have given you wisdom and empathy that others need.",
    "You have the strength to overcome challenges, even when they feel overwhelming.",
    "Taking care of yourself allows you to better care for others.",
    "You are allowed to change your mind and grow in new directions.",
    "Your sensitivity is a superpower, not a weakness.",
    "You create meaning in your life through your choices and actions.",
    "You are deserving of patience, understanding, and gentle treatment.",
    "Every small act of self-care is an act of courage and self-love.",
    "You have the right to set boundaries that protect your peace.",
    "Your dreams and goals are valid, no matter how big or small.",
    "You bring something special to this world that no one else can.",
    "It's okay to feel everything deeply - it means you're fully alive.",
    "You are worthy of taking up space and being heard.",
    "Your journey is unique, and comparison to others is not necessary.",
    "You have the ability to find joy in small, everyday moments.",
    "You are resilient, adaptable, and capable of growth.",
    "Your worth is not determined by your productivity or achievements."
  ]

  const ShownCount := 10

  /* Fingerprint, Owner and the FingerprintsIdentify lemmas are proof
     scaffolding only: comparing forty long literals pairwise is beyond the
     verifier, so `AffirmationsDistinct` instead maps each affirmation to a
     number (its length and next-to-last character) and shows that the number
     leads back to its position. The constants in `Owner` are those numbers. */

  /** Length and next-to-last character of an affirmation, which tell the forty apart. */
  function Fingerprint(s: string): int
    requires |s| >= 2
  {
    |s| * 0x11_0000 + s[|s| - 2] as int
  }

  /** Which affirmation carries each fingerprint (-1: none). */
  function Owner(key: int): int
  {
    match key
    case 69075065 => 0
    case 81330277 => 1
    case 94699639 => 2
    case 100270181 => 3
    case 86900846 => 4
    case 74645608 => 5
    case 81330280 => 6
    case 77987955 => 7
    case 90243173 => 8
    case 84672622 => 9
    case 71303283 => 10
    case 60162159 => 11
    case 54591590 => 12
    case 67960948 => 13
    case 71303284 => 14
    case 84672627 => 15
    case 55705715 => 16
    case 91357305 => 17
    case 61276261 => 18
    case 75759717 => 19
    case 61276275 => 20
    case 69075047 => 21
    case 52363381 => 22
    case 73531492 => 23
    case 88014951 => 24
    case 67960947 => 25
    case 70189171 => 26
    case 54591603 => 27
    case 72417395 => 28
    case 74645620 => 29
    case 71303269 => 30
    case 67960933 => 31
    case 66846828 => 32
    case 70189166 => 33
    case 73531493 => 34
    case 55705700 => 35
    case 73531513 => 36
    case 66846835 => 37
    case 57933928 => 38
    case 73531507 => 39
    case _ => -1
  }

  /** Each affirmation's fingerprint leads back to its own position. */
  lemma FingerprintsIdentify()
    ensures |AllAffirmations| == 40
    ensures forall i :: 0 <= i < |AllAffirmations| ==>
      |AllAffirmations[i]| >= 2 && Owner(Fingerprint(AllAffirmations[i])) == i
  {
    FingerprintsIdentify0();
    FingerprintsIdentify1();
    FingerprintsIdentify2();
    FingerprintsIdentify3();
    FingerprintsIdentify4();
    FingerprintsIdentify5();
    FingerprintsIdentify6();
    FingerprintsIdentify7();
  }

  lemma FingerprintsIdentify0()
    ensures |AllAffirmations| == 40
    ensures forall i :: 0 <= i < 5 ==> |AllAffirmations[i]| >= 2 && Owner(Fingerprint(AllAffirmations[i])) == i
  {
    assert Owner(Fingerprint(AllAffirmations[0])) == 0;
    assert Owner(Fingerprint(AllAffirmations[1])) == 1;
    assert Owner(Fingerprint(AllAffirmations[2])) == 2;
    assert Owner(Fingerprint(AllAffirmations[3])) == 3;
    assert Owner(Fingerprint(AllAffirmations[4])) == 4;
    forall i | 0 <= i < 5
      ensures |AllAffirmations[i]| >= 2 && Owner(Fingerprint(AllAffirmations[i])) == i
    {
      assert i == 0 || i == 1 || i == 2 || i == 3 || i == 4;
    }
  }

  lemma FingerprintsIdentify1()
    ensures |AllAffirmations| == 40
    ensures forall i :: 5 <= i < 10 ==> |AllAffirmations[i]| >= 2 && Owner(Fingerprint(AllAffirmations[i])) == i
  {
    assert Owner(Fingerprint(AllAffirmations[5])) == 5;
    assert Owner(Fingerprint(AllAffirmations[6])) == 6;
    assert Owner(Fingerprint(AllAffirmations[7])) == 7;
    assert Owner(Fingerprint(AllAffirmations[8])) == 8;
    assert Owner(Fingerprint(AllAffirmations[9])) == 9;
    forall i | 5 <= i < 10
      ensures |AllAffirmations[i]| >= 2 && Owner(Fingerprint(AllAffirmations[i])) == i
    {
      assert i == 5 || i == 6 || i == 7 || i == 8 || i == 9;
    }
  }

  lemma FingerprintsIdentify2()
    ensures |AllAffirmations| == 40
    ensures forall i :: 10 <= i < 15 ==> |AllAffirmations[i]| >= 2 && Owner(Fingerprint(AllAffirmations[i])) == i
  {
    assert Owner(Fingerprint(AllAffirmations[10])) == 10;
    assert Owner(Fingerprint(AllAffirmations[11])) == 11;
    assert Owner(Fingerprint(AllAffirmations[12])) == 12;
    assert Owner(Fingerprint(AllAffirmations[13])) == 13;
    assert Owner(Fingerprint(AllAffirmations[14])) == 14;
    forall i | 10 <= i < 15
      ensures |AllAffirmations[i]| >= 2 && Owner(Fingerprint(AllAffirmations[i])) == i
    {
      assert i == 10 || i == 11 || i == 12 || i == 13 || i == 14;
    }
  }

  lemma FingerprintsIdentify3()
    ensures |AllAffirmations| == 40
    ensures forall i :: 15 <= i < 20 ==> |AllAffirmations[i]| >= 2 && Owner(Fingerprint(AllAffirmations[i])) == i
  {
    assert Owner(Fingerprint(AllAffirmations[15])) == 15;
    assert Owner(Fingerprint(AllAffirmations[16])) == 16;
    assert Owner(Fingerprint(AllAffirmations[17])) == 17;
    assert Owner(Fingerprint(AllAffirmations[18])) == 18;
    assert Owner(Fingerprint(AllAffirmations[19])) == 19;
    forall i | 15 <= i < 20
      ensures |AllAffirmations[i]| >= 2 && Owner(Fingerprint(AllAffirmations[i])) == i
    {
      assert i == 15 || i == 16 || i == 17 || i == 18 || i == 19;
    }
  }

  lemma FingerprintsIdentify4()
    ensures |AllAffirmations| == 40
    ensures forall i :: 20 <= i < 25 ==> |AllAffirmations[i]| >= 2 && Owner(Fingerprint(AllAffirmations[i])) == i
  {
    assert Owner(Fingerprint(AllAffirmations[20])) == 20;
    assert Owner(Fingerprint(AllAffirmations[21])) == 21;
    assert Owner(Fingerprint(AllAffirmations[22])) == 22;
    assert Owner(Fingerprint(AllAffirmations[23])) == 23;
    assert Owner(Fingerprint(AllAffirmations[24])) == 24;
    forall i | 20 <= i < 25
      ensures |AllAffirmations[i]| >= 2 && Owner(Fingerprint(AllAffirmations[i])) == i
    {
      assert i == 20 || i == 21 || i == 22 || i == 23 || i == 24;
    }
  }

  lemma FingerprintsIdentify5()
    ensures |AllAffirmations| == 40
    ensures forall i :: 25 <= i < 30 ==> |AllAffirmations[i]| >= 2 && Owner(Fingerprint(AllAffirmations[i])) == i
  {
    assert Owner(Fingerprint(AllAffirmations[25])) == 25;
    assert Owner(Fingerprint(AllAffirmations[26])) == 26;
    assert Owner(Fingerprint(AllAffirmations[27])) == 27;
    assert Owner(Fingerprint(AllAffirmations[28])) == 28;
    assert Owner(Fingerprint(AllAffirmations[29])) == 29;
    forall i | 25 <= i < 30
      ensures |AllAffirmations[i]| >= 2 && Owner(Fingerprint(AllAffirmations[i])) == i
    {
      assert i == 25 || i == 26 || i == 27 || i == 28 || i == 29;
    }
  }

  lemma FingerprintsIdentify6()
    ensures |AllAffirmations| == 40
    ensures forall i :: 30 <= i < 35 ==> |AllAffirmations[i]| >= 2 && Owner(Fingerprint(AllAffirmations[i])) == i
  {
    assert Owner(Fingerprint(AllAffirmations[30])) == 30;
    assert Owner(Fingerprint(AllAffirmations[31])) == 31;
    assert Owner(Fingerprint(AllAffirmations[32])) == 32;
    assert Owner(Fingerprint(AllAffirmations[33])) == 33;
    assert Owner(Fingerprint(AllAffirmations[34])) == 34;
    forall i | 30 <= i < 35
      ensures |AllAffirmations[i]| >= 2 && Owner(Fingerprint(AllAffirmations[i])) == i
    {
      assert i == 30 || i == 31 || i == 32 || i == 33 || i == 34;
    }
  }

  lemma FingerprintsIdentify7()
    ensures |AllAffirmations| == 40
    ensures forall i :: 35 <= i < 40 ==> |AllAffirmations[i]| >= 2 && Owner(Fingerprint(AllAffirmations[i])) == i
  {
    assert Owner(Fingerprint(AllAffirmations[35])) == 35;
    assert Owner(Fingerprint(AllAffirmations[36])) == 36;
    assert Owner(Fingerprint(AllAffirmations[37])) == 37;
    assert Owner(Fingerprint(AllAffirmations[38])) == 38;
    assert Owner(Fingerprint(AllAffirmations[39])) == 39;
    forall i | 35 <= i < 40
      ensures |AllAffirmations[i]| >= 2 && Owner(Fingerprint(AllAffirmations[i])) == i
    {
      assert i == 35 || i == 36 || i == 37 || i == 38 || i == 39;
    }
  }

  /** No affirmation is listed twice. */
  lemma AffirmationsDistinct()
    ensures |AllAffirmations| == 40 && Distinct(AllAffirmations)
  {
    FingerprintsIdentify();
    forall i, j | 0 <= i < j < |AllAffirmations|
      ensures AllAffirmations[i] != AllAffirmations[j]
    {
      assert Owner(Fingerprint(AllAffirmations[i])) == i;
      assert Owner(Fingerprint(AllAffirmations[j])) == j;
    }
  }

  /** `shuffled.slice(0, 10)` with the random sort putting the list in the
      order `order`: ten different affirmations of the list. */
  function FirstTen(order: seq<nat>): (r: seq<string>)
    requires IsOrder(order, |AllAffirmations|)
    ensures |r| == ShownCount && Distinct(r)
    ensures forall a :: a in r ==> a in AllAffirmations
  {
    AffirmationsDistinct();
    Pick(AllAffirmations, order, ShownCount)
  }

  /** `favorites.filter(fav => fav !== a)`: every occurrence of `a` gone, the
      rest kept in order. */
  function Without(favorites: seq<string>, a: string): (r: seq<string>)
    ensures |r| <= |favorites|
    ensures forall x :: x in r <==> x in favorites && x != a
    ensures a !in favorites ==> r == favorites
  {
    if favorites == [] then []
    else if favorites[0] == a then Without(favorites[1..], a)
    else [favorites[0]] + Without(favorites[1..], a)
  }

  /** Filtering works piecewise, which is what keeping the order means. */
  lemma {:induction false} WithoutConcat(p: seq<string>, q: seq<string>, a: string)
    ensures Without(p + q, a) == Without(p, a) + Without(q, a)
    decreases |p|
  {
    if p == [] {
      assert p + q == q;
    } else {
      assert (p + q)[1..] == p[1..] + q;
      WithoutConcat(p[1..], q, a);
    }
  }

  /** Removing from a duplicate-free list takes out just the one entry, leaving
      those before and after it in place, and keeps the list duplicate-free. */
  lemma WithoutOne(p: seq<string>, a: string, q: seq<string>)
    requires Distinct(p + [a] + q)
    ensures Without(p + [a] + q, a) == p + q
  {
    assert (p + [a] + q)[|p|] == a;
    assert a !in p by {
      forall i | 0 <= i < |p| ensures p[i] != a {
        assert (p + [a] + q)[i] == p[i];
      }
    }
    assert a !in q by {
      forall i | 0 <= i < |q| ensures q[i] != a {
        assert (p + [a] + q)[|p| + 1 + i] == q[i];
      }
    }
    WithoutConcat(p + [a], q, a);
    WithoutConcat(p, [a], a);
  }

  lemma {:induction false} WithoutKeepsDistinct(favorites: seq<string>, a: string)
    requires Distinct(favorites)
    ensures Distinct(Without(favorites, a))
    decreases |favorites|
  {
    if favorites != [] {
      WithoutKeepsDistinct(favorites[1..], a);
      if favorites[0] != a {
        var rest := Without(favorites[1..], a);
        assert favorites[0] !in favorites[1..];
        assert favorites[0] !in rest;
        forall i, j | 0 <= i < j < |[favorites[0]] + rest|
          ensures ([favorites[0]] + rest)[i] != ([favorites[0]] + rest)[j]
        {
          if i == 0 {
            assert ([favorites[0]] + rest)[j] == rest[j - 1];
          }
        }
      }
    }
  }

  /** `addToFavorites`: an affirmation already there changes nothing; a new
      one is added at the end. */
  function Added(favorites: seq<string>, a: string): (r: seq<string>)
    ensures a in favorites ==> r == favorites
    ensures a !in favorites ==> r == favorites + [a]
    ensures Distinct(favorites) ==> Distinct(r)
  {
    if a in favorites then favorites else favorites + [a]
  }

  /** The star button: it removes a favourite and adds anything else, so
      afterwards `a` is a favourite exactly when it was not before, and no other
      affirmation's membership changes. */
  function Toggled(favorites: seq<string>, a: string): (r: seq<string>)
    requires Distinct(favorites)
    ensures Distinct(r)
    ensures a in r <==> a !in favorites
    ensures forall x :: x != a ==> (x in r <==> x in favorites)
  {
    WithoutKeepsDistinct(favorites, a);
    if a in favorites then Without(favorites, a) else Added(favorites, a)
  }

  /** Starring a new affirmation and unstarring it again gives back the same
      list, in the same order. */
  lemma ToggleTwice(favorites: seq<string>, a: string)
    requires Distinct(favorites) && a !in favorites
    ensures Toggled(Toggled(favorites, a), a) == favorites
  {
    WithoutOne(favorites, a, []);
    assert favorites + [a] + [] == favorites + [a];
    assert favorites + [] == favorites;
  }

  class AffirmationsPage {
    var currentAffirmations: seq<string>
    var favoriteAffirmations: seq<string>
    var showFavorites: bool

    /** Ten different affirmations of the list on show; favourites taken from
        the list and never twice. */
    ghost predicate Valid()
      reads this
    {
      && |currentAffirmations| == ShownCount && Distinct(currentAffirmations)
      && (forall a :: a in currentAffirmations ==> a in AllAffirmations)
      && Distinct(favoriteAffirmations)
      && (forall a :: a in favoriteAffirmations ==> a in AllAffirmations)
    }

    /** The cards on show, the favourites or the current ten: never a card
        twice, each from the list, and ten of them outside the favourites view. */
    function Displayed(): (r: seq<string>)
      reads this
      ensures Valid() ==> Distinct(r) && forall a :: a in r ==> a in AllAffirmations
      ensures Valid() && !showFavorites ==> |r| == ShownCount
    {
      if showFavorites then favoriteAffirmations else currentAffirmations
    }

    /** `isFavorite`: the heart is filled exactly when removing the card from
        the favourites would change them. */
    function IsFavorite(a: string): (b: bool)
      reads this
      ensures b <==> Without(favoriteAffirmations, a) != favoriteAffirmations
    {
      a in favoriteAffirmations
    }

    /** First render plus the mount effect, which loads ten affirmations from
        the random order `order`. */
    constructor (order: seq<nat>)
      requires IsOrder(order, |AllAffirmations|)
      ensures Valid()
      ensures currentAffirmations == FirstTen(order)
      ensures favoriteAffirmations == [] && !showFavorites
    {
      currentAffirmations := FirstTen(order);
      favoriteAffirmations := [];
      showFavorites := false;
    }

    /** "New Affirmations": ten from a new random order; favourites stay. */
    method LoadNewAffirmations(order: seq<nat>)
      requires Valid() && IsOrder(order, |AllAffirmations|)
      modifies this
      ensures Valid()
      ensures currentAffirmations == FirstTen(order)
      ensures favoriteAffirmations == old(favoriteAffirmations) && showFavorites == old(showFavorites)
    {
      currentAffirmations := FirstTen(order);
    }

    method AddToFavorites(a: string)
      requires Valid() && a in AllAffirmations
      modifies this
      ensures Valid()
      ensures favoriteAffirmations == Added(old(favoriteAffirmations), a)
      ensures currentAffirmations == old(currentAffirmations) && showFavorites == old(showFavorites)
    {
      if !IsFavorite(a) {
        favoriteAffirmations := favoriteAffirmations + [a];
      }
    }

    method RemoveFromFavorites(a: string)
      requires Valid()
      modifies this
      ensures Valid()
      ensures favoriteAffirmations == Without(old(favoriteAffirmations), a)
      ensures currentAffirmations == old(currentAffirmations) && showFavorites == old(showFavorites)
    {
      WithoutKeepsDistinct(favoriteAffirmations, a);
      favoriteAffirmations := Without(favoriteAffirmations, a);
    }

    /** The star on a card on show. */
    method ToggleFavorite(a: string)
      requires Valid() && a in Displayed()
      modifies this
      ensures Valid()
      ensures favoriteAffirmations == Toggled(old(favoriteAffirmations), a)
      ensures IsFavorite(a) == !old(IsFavorite(a))
      ensures forall x :: x != a ==> IsFavorite(x) == old(IsFavorite(x))
      ensures currentAffirmations == old(currentAffirmations) && showFavorites == old(showFavorites)
    {
      if IsFavorite(a) {
        RemoveFromFavorites(a);
      } else {
        AddToFavorites(a);
      }
    }

    /** The Favorites / Show All switch. */
    method ToggleShowFavorites()
      requires Valid()
      modifies this
      ensures Valid() && showFavorites == !old(showFavorites)
      ensures currentAffirmations == old(currentAffirmations) && favoriteAffirmations == old(favoriteAffirmations)
    {
      showFavorites := !showFavorites;
    }
  }

  /** Starring a card on show that is not a favourite makes it the newest favourite. */
  method StarOne(page: AffirmationsPage, a: string)
    requires page.Valid() && !page.showFavorites
    requires a in page.currentAffirmations && a !in page.favoriteAffirmations
    modifies page
    ensures page.Valid() && !page.showFavorites
    ensures page.favoriteAffirmations == old(page.favoriteAffirmations) + [a]
    ensures page.currentAffirmations == old(page.currentAffirmations)
  {
    page.ToggleFavorite(a);
  }

  /** Starring three different cards of the ten on show, with no favourites
      yet, makes them the favourites in the order they were starred. */
  method StarThree(page: AffirmationsPage, a: string, b: string, c: string)
    requires page.Valid() && !page.showFavorites && page.favoriteAffirmations == []
    requires a in page.currentAffirmations && b in page.currentAffirmations && c in page.currentAffirmations
    requires a != b && b != c && a != c
    modifies page
    ensures page.Valid() && !page.showFavorites
    ensures page.favoriteAffirmations == [a, b, c]
  {
    StarOne(page, a);
    assert page.favoriteAffirmations == [a];
    StarOne(page, b);
    assert page.favoriteAffirmations == [a, b];
    StarOne(page, c);
  }

  /** Starring three cards and unstarring the middle one in the favourites view
      leaves the other two, in the order they were starred. */
  method StarThreeUnstarOne(order: seq<nat>) returns (favorites: seq<string>)
    requires IsOrder(order, |AllAffirmations|)
    ensures favorites == [AllAffirmations[order[0]], AllAffirmations[order[2]]]
  {
    var page := new AffirmationsPage(order);
    var a, b, c := page.currentAffirmations[0], page.currentAffirmations[1], page.currentAffirmations[2];
    StarThree(page, a, b, c);
    page.ToggleShowFavorites();
    assert page.favoriteAffirmations == [a] + [b] + [c];
    page.ToggleFavorite(b);
    WithoutOne([a], b, [c]);
    favorites := page.favoriteAffirmations;
  }
}

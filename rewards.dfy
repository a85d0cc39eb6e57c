/**
 * The web rewards page (`app/rewards/page.tsx`): a points balance, the list of redeemed
 * reward ids, the redeem action, the category filter and the redeem button's rules.
 */
module Rewards {
  import opened Text
  import opened Seqs

  /** A catalogue entry; `popular` is false where the page leaves it out. */
  datatype Reward = Reward(id: string, name: string, points: int, category: string,
                           description: string, image: string, popular: bool)

  const Catalogue: seq<Reward> := [
    Reward("amazon-100", "\U{20B9}100 Amazon Voucher", 1000, "vouchers",
           "Shop for anything on Amazon with this voucher", "\U{1F6D2}", true),
    Reward("plant-tree", "Plant a Tree", 500, "environment",
           "We'll plant a tree in your name in partnership with local NGOs", "\U{1F333}", true),
    Reward("water-bottle", "Eco Water Bottle", 800, "products",
           "Sustainable bamboo fiber water bottle", "\U{1F376}", false),
    Reward("flipkart-500", "\U{20B9}500 Flipkart Voucher", 5000, "vouchers",
           "Premium shopping voucher for Flipkart", "\U{1F6CD}\U{FE0F}", false),
    Reward("solar-charger", "Solar Phone Charger", 1500, "products",
           "Portable solar-powered phone charger", "\U{1F50B}", false),
    Reward("organic-seeds", "Organic Seed Kit", 600, "environment",
           "Grow your own organic vegetables at home", "\U{1F331}", false)
  ]

  /** The page's two pieces of state: the balance and the redeemed ids, oldest first. */
  datatype Ledger = Ledger(points: int, redeemed: seq<string>)

  const InitialLedger := Ledger(2250, [])

  /** `handleRedeem(id, cost)`: with enough points the cost is taken off and the id is
    * appended; otherwise nothing changes. The redeemed list is not consulted. */
  function Redeem(l: Ledger, id: string, cost: int): (r: Ledger)
    ensures l.points >= cost ==> r.points == l.points - cost && r.redeemed == l.redeemed + [id]
    ensures l.points < cost ==> r == l
    ensures l.points >= 0 ==> r.points >= 0
  {
    if l.points >= cost then Ledger(l.points - cost, l.redeemed + [id]) else l
  }

  /** The same reward redeemed twice is recorded twice when the balance covers it. */
  lemma RedeemRepeats(l: Ledger, id: string, cost: int)
    requires cost >= 0 && l.points >= 2 * cost
    ensures Redeem(Redeem(l, id, cost), id, cost) == Ledger(l.points - 2 * cost,
                                                           l.redeemed + [id, id])
  {
    assert l.redeemed + [id] + [id] == l.redeemed + [id, id];
  }

  /** The redeem button is disabled when the balance is short or the reward is redeemed. */
  predicate RedeemDisabled(l: Ledger, r: Reward) {
    l.points < r.points || r.id in l.redeemed
  }

  /** A click on an enabled button always redeems, and afterwards the button is disabled. */
  lemma EnabledClickRedeems(l: Ledger, r: Reward, later: int)
    requires !RedeemDisabled(l, r)
    ensures Redeem(l, r.id, r.points) == Ledger(l.points - r.points, l.redeemed + [r.id])
    ensures RedeemDisabled(Ledger(later, Redeem(l, r.id, r.points).redeemed), r)
  {
    assert (l.redeemed + [r.id])[|l.redeemed|] == r.id;
  }

  /** Clicking the buttons of `rs` in turn: a disabled button does nothing. */
  function Clicks(l: Ledger, rs: seq<Reward>): Ledger
    decreases |rs|
  {
    if rs == [] then l
    else Clicks(if RedeemDisabled(l, rs[0]) then l else Redeem(l, rs[0].id, rs[0].points),
                rs[1..])
  }

  predicate Distinct(ids: seq<string>) {
    forall i, j :: 0 <= i < j < |ids| ==> ids[i] != ids[j]
  }

  /** Through the buttons alone, no reward is redeemed twice and the balance stays
    * non-negative. */
  lemma {:induction false} ClicksNeverRepeat(l: Ledger, rs: seq<Reward>)
    requires l.points >= 0 && Distinct(l.redeemed)
    ensures Clicks(l, rs).points >= 0 && Distinct(Clicks(l, rs).redeemed)
    decreases |rs|
  {
    if rs != [] {
      var next := if RedeemDisabled(l, rs[0]) then l else Redeem(l, rs[0].id, rs[0].points);
      if !RedeemDisabled(l, rs[0]) {
        assert next.redeemed == l.redeemed + [rs[0].id];
        forall i, j | 0 <= i < j < |next.redeemed|
          ensures next.redeemed[i] != next.redeemed[j]
        {
          if j == |l.redeemed| {
            assert next.redeemed[i] == l.redeemed[i];
          }
        }
      }
      ClicksNeverRepeat(next, rs[1..]);
    }
  }

  const RedeemedLabel := "Redeemed \U{2713}"
  const RedeemNowLabel := "Redeem Now"

  /** `Need n more points`, with n the shortfall. */
  function NeedLabel(shortfall: int): string {
    "Need " + IntToString(shortfall) + " more points"
  }

  /** The button's text: redeemed first, then the shortfall, then the invitation. */
  function ButtonLabel(l: Ledger, r: Reward): (s: string)
    ensures r.id in l.redeemed ==> s == RedeemedLabel
    ensures r.id !in l.redeemed && l.points < r.points ==> s == NeedLabel(r.points - l.points)
    ensures r.id !in l.redeemed && l.points >= r.points ==> s == RedeemNowLabel
  {
    if r.id in l.redeemed then RedeemedLabel
    else if l.points < r.points then NeedLabel(r.points - l.points)
    else RedeemNowLabel
  }

  /** Different shortfalls give different labels. */
  lemma NeedLabelInjective(m: int, n: int)
    requires NeedLabel(m) == NeedLabel(n)
    ensures m == n
  {
    var a, b := NeedLabel(m), NeedLabel(n);
    assert a[5..|a| - 12] == IntToString(m);
    assert b[5..|b| - 12] == IntToString(n);
    IntToStringInjective(m, n);
  }

  /** The label invites a redeem exactly when the button is enabled, and a shortfall label
    * shows the positive number of points still missing. */
  lemma LabelMatchesButton(l: Ledger, r: Reward)
    ensures ButtonLabel(l, r) == RedeemNowLabel <==> !RedeemDisabled(l, r)
    ensures forall n :: ButtonLabel(l, r) == NeedLabel(n) ==>
      r.id !in l.redeemed && n == r.points - l.points && n > 0
  {
    if r.id in l.redeemed {
      assert RedeemedLabel[0] == 'R' && RedeemedLabel[7] != RedeemNowLabel[7];
    } else if l.points < r.points {
      var s := NeedLabel(r.points - l.points);
      assert s[0] == 'N';
      forall n | ButtonLabel(l, r) == NeedLabel(n) ensures n == r.points - l.points {
        NeedLabelInjective(n, r.points - l.points);
      }
    }
  }

  /** `filteredRewards(category)`: the whole catalogue for "all", otherwise the entries of
    * that category in catalogue order. */
  function FilteredRewards(category: string): (r: seq<Reward>)
    ensures category == "all" ==> r == Catalogue
    ensures category != "all" ==> IsSubsequence(r, Catalogue)
    ensures category != "all" ==> forall x :: x in r <==> x in Catalogue && x.category == category
  {
    if category == "all" then Catalogue
    else
      FilterIsSubsequence(Catalogue, (x: Reward) => x.category == category);
      Filter(Catalogue, (x: Reward) => x.category == category)
  }

  /** The page as a component: the ledger in two state variables. */
  class RewardsPage {
    var userPoints: int
    var redeemedRewards: seq<string>

    function State(): Ledger
      reads this
    {
      Ledger(userPoints, redeemedRewards)
    }

    ghost predicate Valid()
      reads this
    {
      userPoints >= 0
    }

    constructor()
      ensures State() == InitialLedger && Valid()
    {
      userPoints := 2250;
      redeemedRewards := [];
    }

    /** `handleRedeem`; a balance that was never negative stays so. */
    method HandleRedeem(rewardId: string, points: int)
      modifies this
      ensures State() == Redeem(old(State()), rewardId, points)
      ensures old(Valid()) ==> Valid()
    {
      if userPoints >= points {
        userPoints := userPoints - points;
        redeemedRewards := redeemedRewards + [rewardId];
      }
    }
  }
}

/** The impact calculator: the daily carbon footprint of four habits
    (`calculate_co2_impact`), the reduction tips (`generate_suggestions`)
    and the response of the calculate-impact endpoint that combines them.

    Every quantity is an exact number of tenths of a kilogram of CO2: each
    table constant has one decimal place, so 6.5 kg is 65 here. */
module Impact {

  /** Daily kg CO2 per habit value, in tenths. */
  const TransportTable: map<string, nat> := map["car" := 65, "bike" := 0, "walk" := 0, "public" := 21]
  const DietTable: map<string, nat> := map["meat" := 72, "vegetarian" := 38, "vegan" := 29, "pescatarian" := 41]
  const EnergyTable: map<string, nat> := map["low" := 21, "medium" := 48, "high" := 82]
  const WasteTable: map<string, nat> := map["minimal" := 8, "average" := 23, "high" := 41]

  /** What an unrecognised value costs: the car, meat, medium and average rates. */
  const TransportDefault: nat := 65
  const DietDefault: nat := 72
  const EnergyDefault: nat := 48
  const WasteDefault: nat := 23

  /** The smallest and largest daily footprint any four habits can give:
      5.8 kg (walk or bike, vegan, low, minimal) and 26.0 kg (car, meat,
      high, high). */
  const MinDailyTenths: nat := 58
  const MaxDailyTenths: nat := 260

  /** Python's `table.get(key, default)`. */
  function Lookup(table: map<string, nat>, key: string, default: nat): nat
  {
    if key in table then table[key] else default
  }

  /** The footprint `calculate_co2_impact` returns: daily, weekly and
      yearly totals, all in tenths of a kilogram. */
  datatype Co2Impact = Co2Impact(dailyTenths: nat, weeklyTenths: nat, yearlyTenths: nat)

  function DailyTenths(transport: string, diet: string, energy: string, waste: string): nat
  {
    Lookup(TransportTable, transport, TransportDefault)
    + Lookup(DietTable, diet, DietDefault)
    + Lookup(EnergyTable, energy, EnergyDefault)
    + Lookup(WasteTable, waste, WasteDefault)
  }

  function CalculateCo2Impact(transport: string, diet: string, energy: string, waste: string): (r: Co2Impact)
    ensures r.dailyTenths == DailyTenths(transport, diet, energy, waste)
    ensures r.weeklyTenths == 7 * r.dailyTenths
    ensures r.yearlyTenths == 365 * r.dailyTenths
    ensures MinDailyTenths <= r.dailyTenths <= MaxDailyTenths
  {
    var daily := DailyTenths(transport, diet, energy, waste);
    Co2Impact(daily, daily * 7, daily * 365)
  }

  /** An unrecognised habit value is costed exactly as the default it
      stands in for: car, meat, medium energy and average waste. */
  lemma UnknownHabitsCostedAsDefaults(transport: string, diet: string, energy: string, waste: string)
    ensures transport !in TransportTable ==>
      CalculateCo2Impact(transport, diet, energy, waste) == CalculateCo2Impact("car", diet, energy, waste)
    ensures diet !in DietTable ==>
      CalculateCo2Impact(transport, diet, energy, waste) == CalculateCo2Impact(transport, "meat", energy, waste)
    ensures energy !in EnergyTable ==>
      CalculateCo2Impact(transport, diet, energy, waste) == CalculateCo2Impact(transport, diet, "medium", waste)
    ensures waste !in WasteTable ==>
      CalculateCo2Impact(transport, diet, energy, waste) == CalculateCo2Impact(transport, diet, energy, "average")
  {
  }

  /** Both bounds of the daily footprint are reached, so neither can be
      tightened; in particular no input gives a zero footprint. */
  lemma DailyBoundsAreTight()
    ensures CalculateCo2Impact("walk", "vegan", "low", "minimal").dailyTenths == MinDailyTenths
    ensures CalculateCo2Impact("bike", "vegan", "low", "minimal").dailyTenths == MinDailyTenths
    ensures CalculateCo2Impact("car", "meat", "high", "high").dailyTenths == MaxDailyTenths
  {
  }

  // ---------------------------------------------------------------------
  // Suggestions

  // Each tip is its emoji followed by the text; the two are separate
  // literals only so that the verifier can see each tip's first character.
  const BikeTip: string := "\U{1F6B4}" + " Try biking or walking for short trips - save 6.5kg CO2/day"
  const MeatTip: string := "\U{1F957}" + " Reduce meat consumption 2-3 days/week - save up to 3kg CO2/day"
  const EnergyTip: string := "\U{1F4A1}" + " Switch to LED bulbs and unplug devices - save 2-4kg CO2/day"
  const WasteTip: string := "\U{267B}\U{FE0F}" + " Start composting and reduce packaging - save 1-2kg CO2/day"

  lemma TipsDistinct()
    ensures BikeTip != MeatTip && BikeTip != EnergyTip && BikeTip != WasteTip
    ensures MeatTip != EnergyTip && MeatTip != WasteTip && EnergyTip != WasteTip
  {
    assert BikeTip[0] != MeatTip[0] && BikeTip[0] != EnergyTip[0] && BikeTip[0] != WasteTip[0];
    assert MeatTip[0] != EnergyTip[0] && MeatTip[0] != WasteTip[0] && EnergyTip[0] != WasteTip[0];
  }

  /** The four tips, in the order they are considered. */
  const Tips: seq<string> := [BikeTip, MeatTip, EnergyTip, WasteTip]

  /** Which tips apply: exactly the habit values "car", "meat", "high"
      energy use and "high" waste trigger one. */
  function Triggers(transport: string, diet: string, energy: string, waste: string): (r: seq<bool>)
    ensures |r| == |Tips|
  {
    [transport == "car", diet == "meat", energy == "high", waste == "high"]
  }

  /** The entries of `items` whose flag in `keep` is set, in their
      original order. */
  function Select<T>(items: seq<T>, keep: seq<bool>): (r: seq<T>)
    requires |items| == |keep|
    ensures |r| == Count(keep)
    decreases |keep|
  {
    if keep == [] then []
    else
      var n := |keep| - 1;
      Select(items[..n], keep[..n]) + (if keep[n] then [items[n]] else [])
  }

  /** The number of set flags. */
  function Count(keep: seq<bool>): (r: nat)
    ensures r <= |keep|
  {
    if keep == [] then 0 else Count(keep[..|keep| - 1]) + (if keep[|keep| - 1] then 1 else 0)
  }

  /** The suggestion list of `generate_suggestions`. */
  function Suggestions(transport: string, diet: string, energy: string, waste: string): seq<string>
  {
    Select(Tips, Triggers(transport, diet, energy, waste))
  }

  /** The position of each tip in `Tips`. */
  function TipRank(tip: string): nat
  {
    if tip == BikeTip then 0 else if tip == MeatTip then 1 else if tip == EnergyTip then 2 else 3
  }

  /** Builds the list by appending one tip per triggering habit, as the
      source does, starting from the empty list. */
  method GenerateSuggestions(transport: string, diet: string, energy: string, waste: string)
    returns (suggestions: seq<string>)
    ensures suggestions == Suggestions(transport, diet, energy, waste)
  {
    ghost var flags := Triggers(transport, diet, energy, waste);
    suggestions := [];
    assert suggestions == Select(Tips[..0], flags[..0]);
    if transport == "car" {
      suggestions := suggestions + [BikeTip];
    }
    assert suggestions == Select(Tips[..1], flags[..1]) by {
      assert Tips[..1][..0] == Tips[..0] && flags[..1][..0] == flags[..0];
    }
    if diet == "meat" {
      suggestions := suggestions + [MeatTip];
    }
    assert suggestions == Select(Tips[..2], flags[..2]) by {
      assert Tips[..2][..1] == Tips[..1] && flags[..2][..1] == flags[..1];
    }
    if energy == "high" {
      suggestions := suggestions + [EnergyTip];
    }
    assert suggestions == Select(Tips[..3], flags[..3]) by {
      assert Tips[..3][..2] == Tips[..2] && flags[..3][..2] == flags[..2];
    }
    if waste == "high" {
      suggestions := suggestions + [WasteTip];
    }
    assert suggestions == Select(Tips[..4], flags[..4]) by {
      assert Tips[..4][..3] == Tips[..3] && flags[..4][..3] == flags[..3];
    }
    assert Tips[..4] == Tips && flags[..4] == flags;
  }

  /** An element is selected exactly when one of its kept positions holds it. */
  lemma {:induction false} SelectMember<T>(items: seq<T>, keep: seq<bool>, x: T)
    requires |items| == |keep|
    ensures x in Select(items, keep) <==> exists k :: 0 <= k < |keep| && keep[k] && items[k] == x
    decreases |keep|
  {
    if keep != [] {
      var n := |keep| - 1;
      var front := Select(items[..n], keep[..n]);
      SelectMember(items[..n], keep[..n], x);
      assert Select(items, keep) == front + (if keep[n] then [items[n]] else []);
      if x in front {
        var k :| 0 <= k < n && keep[..n][k] && items[..n][k] == x;
        assert keep[k] && items[k] == x;
      }
      if exists k :: 0 <= k < |keep| && keep[k] && items[k] == x {
        var k :| 0 <= k < |keep| && keep[k] && items[k] == x;
        if k < n {
          assert keep[..n][k] && items[..n][k] == x;
        }
      }
    }
  }

  /** The positions of the set flags, in increasing order. */
  function KeptPositions(keep: seq<bool>): (r: seq<nat>)
    ensures |r| == Count(keep)
    ensures forall i :: 0 <= i < |r| ==> r[i] < |keep| && keep[r[i]]
    ensures forall i, j :: 0 <= i < j < |r| ==> r[i] < r[j]
  {
    if keep == [] then []
    else
      var n := |keep| - 1;
      KeptPositions(keep[..n]) + (if keep[n] then [n] else [])
  }

  /** Selection keeps the order of `items`: its `i`-th entry is the item at
      the `i`-th kept position. */
  lemma {:induction false} SelectAt<T>(items: seq<T>, keep: seq<bool>)
    requires |items| == |keep|
    ensures var r, p := Select(items, keep), KeptPositions(keep);
      |r| == |p| && forall i :: 0 <= i < |r| ==> r[i] == items[p[i]]
    decreases |keep|
  {
    if keep != [] {
      var n := |keep| - 1;
      SelectAt(items[..n], keep[..n]);
      var r, p := Select(items, keep), KeptPositions(keep);
      var r', p' := Select(items[..n], keep[..n]), KeptPositions(keep[..n]);
      forall i | 0 <= i < |r|
        ensures r[i] == items[p[i]]
      {
        if i < |r'| {
          assert r[i] == r'[i] == items[..n][p'[i]];
          assert p[i] == p'[i];
        }
      }
    }
  }

  /** No flag set means nothing selected, and conversely. */
  lemma {:induction false} CountZero(keep: seq<bool>)
    ensures Count(keep) == 0 <==> forall k :: 0 <= k < |keep| ==> !keep[k]
  {
    if keep != [] {
      var n := |keep| - 1;
      CountZero(keep[..n]);
      assert forall k :: 0 <= k < n ==> keep[..n][k] == keep[k];
    }
  }

  /** Each tip's rank is its position in `Tips`. */
  lemma TipsRanked()
    ensures forall k :: 0 <= k < |Tips| ==> TipRank(Tips[k]) == k
  {
    TipsDistinct();
    forall k | 0 <= k < |Tips|
      ensures TipRank(Tips[k]) == k
    {
      if k == 0 {
      } else if k == 1 {
      } else if k == 2 {
      } else {
      }
    }
  }

  /** The tip at position `i` is selected exactly when flag `i` is set. */
  lemma TipSelected(flags: seq<bool>, i: nat)
    requires |flags| == |Tips| && i < |Tips|
    ensures Tips[i] in Select(Tips, flags) <==> flags[i]
  {
    SelectMember(Tips, flags, Tips[i]);
    TipsRanked();
    if Tips[i] in Select(Tips, flags) {
      var k :| 0 <= k < |flags| && flags[k] && Tips[k] == Tips[i];
      assert TipRank(Tips[k]) == k && TipRank(Tips[i]) == i;
    }
  }

  /** Each tip is in the list exactly when its habit triggers it. */
  lemma SuggestionMembership(transport: string, diet: string, energy: string, waste: string)
    ensures var s := Suggestions(transport, diet, energy, waste);
      && (BikeTip in s <==> transport == "car")
      && (MeatTip in s <==> diet == "meat")
      && (EnergyTip in s <==> energy == "high")
      && (WasteTip in s <==> waste == "high")
  {
    var flags := Triggers(transport, diet, energy, waste);
    TipSelected(flags, 0);
    TipSelected(flags, 1);
    TipSelected(flags, 2);
    TipSelected(flags, 3);
  }

  /** At most four suggestions, none when no habit triggers one, and they
      come in the fixed order car, meat, energy, waste. */
  lemma SuggestionsShape(transport: string, diet: string, energy: string, waste: string)
    ensures var s := Suggestions(transport, diet, energy, waste);
      && |s| <= 4
      && (s == [] <==> transport != "car" && diet != "meat" && energy != "high" && waste != "high")
      && forall i, j :: 0 <= i < j < |s| ==> TipRank(s[i]) < TipRank(s[j])
  {
    var flags := Triggers(transport, diet, energy, waste);
    CountZero(flags);
    assert (forall k :: 0 <= k < |flags| ==> !flags[k]) <==> !flags[0] && !flags[1] && !flags[2] && !flags[3];
    TipsRanked();
    SelectAt(Tips, flags);
    var s, p := Suggestions(transport, diet, energy, waste), KeptPositions(flags);
    forall i, j | 0 <= i < j < |s|
      ensures TipRank(s[i]) < TipRank(s[j])
    {
      assert TipRank(s[i]) == TipRank(Tips[p[i]]) == p[i];
      assert TipRank(s[j]) == TipRank(Tips[p[j]]) == p[j];
    }
  }

  /** An unrecognised transport or diet is costed as car or meat but
      triggers no tip, unlike "car" and "meat" themselves. */
  lemma UnknownHabitGetsNoTip(transport: string, diet: string, energy: string, waste: string)
    requires transport !in TransportTable
    requires diet !in DietTable
    ensures DailyTenths(transport, diet, energy, waste) == DailyTenths("car", "meat", energy, waste)
    ensures BikeTip !in Suggestions(transport, diet, energy, waste)
    ensures MeatTip !in Suggestions(transport, diet, energy, waste)
    ensures BikeTip in Suggestions("car", "meat", energy, waste)
    ensures MeatTip in Suggestions("car", "meat", energy, waste)
  {
    SuggestionMembership(transport, diet, energy, waste);
    SuggestionMembership("car", "meat", energy, waste);
  }

  // ---------------------------------------------------------------------
  // The calculate-impact endpoint

  datatype HabitInput = HabitInput(userId: string, transport: string, diet: string, energyUsage: string, wasteHabits: string)

  datatype ImpactSimulation = ImpactSimulation(
    dailyTenths: nat, weeklyTenths: nat, yearlyTenths: nat,
    suggestions: seq<string>, positiveImpact: string)

  /** The reply of the calculate-impact endpoint, given the text the AI
      provider chain produced for the encouraging message. */
  method CalculateImpact(request: HabitInput, positiveImpact: string) returns (r: ImpactSimulation)
    ensures r.dailyTenths == DailyTenths(request.transport, request.diet, request.energyUsage, request.wasteHabits)
    ensures r.weeklyTenths == 7 * r.dailyTenths && r.yearlyTenths == 365 * r.dailyTenths
    ensures MinDailyTenths <= r.dailyTenths <= MaxDailyTenths
    ensures r.suggestions == Suggestions(request.transport, request.diet, request.energyUsage, request.wasteHabits)
    ensures r.positiveImpact == positiveImpact
  {
    var impact := CalculateCo2Impact(request.transport, request.diet, request.energyUsage, request.wasteHabits);
    var suggestions := GenerateSuggestions(request.transport, request.diet, request.energyUsage, request.wasteHabits);
    r := ImpactSimulation(impact.dailyTenths, impact.weeklyTenths, impact.yearlyTenths, suggestions, positiveImpact);
  }
}

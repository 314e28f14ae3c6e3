/** src/app/stations/page.tsx: the public station list. Each fuel name is
    classified into an icon category by its lower-cased text; the stations
    of the first page are mapped to display records carrying the same three
    fuels; a station with both coordinates truthy offers a map, shown in a
    modal until it is closed. */
module PublicStations {
  import opened Wrappers
  import opened Js
  import Text

  // -------------------------------------------------------------- fuel icons

  /** The icon categories of `getIconForFuel`: gasoline (red fuel pump),
      diesel (droplet), gas (flame), shop (store) and the grey default pump. */
  datatype Icon = Gasoline | Diesel | Gas | Shop | DefaultPump

  const GasolineNames: set<string> := {"gasolina", "gasolina especial", "gasolina premium"}
  const DieselNames: set<string> := {"diésel", "diésel oil", "diésel ulsd/uls"}
  const GasNames: set<string> := {"gas natural", "gas"}
  const ShopNames: set<string> := {"tienda"}

  /** `getIconForFuel`: a switch over the lower-cased name. */
  function FuelIcon(name: string): (icon: Icon)
    ensures icon == Gasoline <==> Text.ToLower(name) in GasolineNames
    ensures icon == Diesel <==> Text.ToLower(name) in DieselNames
    ensures icon == Gas <==> Text.ToLower(name) in GasNames
    ensures icon == Shop <==> Text.ToLower(name) in ShopNames
    ensures icon == DefaultPump <==>
              Text.ToLower(name) !in GasolineNames + DieselNames + GasNames + ShopNames
  {
    var key := Text.ToLower(name);
    if key in GasolineNames then Gasoline
    else if key in DieselNames then Diesel
    else if key in GasNames then Gas
    else if key in ShopNames then Shop
    else DefaultPump
  }

  /** The category depends only on the lower-cased text: names differing only
      in case share an icon, and lower-casing first changes nothing. */
  lemma IconIgnoresCase(a: string, b: string)
    requires Text.ToLower(a) == Text.ToLower(b)
    ensures FuelIcon(a) == FuelIcon(b)
    ensures FuelIcon(Text.ToLower(a)) == FuelIcon(a)
  {
    Text.ToLowerIdempotent(a);
  }

  /** The four categories name pairwise disjoint sets, so the switch order
      decides nothing. */
  lemma CategoriesDisjoint()
    ensures GasolineNames * DieselNames == {} && GasolineNames * GasNames == {}
    ensures GasolineNames * ShopNames == {} && DieselNames * GasNames == {}
    ensures DieselNames * ShopNames == {} && GasNames * ShopNames == {}
  {
  }

  // --------------------------------------------------------- station mapping

  datatype Fuel = Fuel(kind: string, icon: Icon)

  /** A display record; the fields hold whatever the response carried. */
  datatype PublicStation = PublicStation(
    id: Value, name: Value, address: Value, gpsLatitude: Value, gpsLongitude: Value, fuels: seq<Fuel>)

  const FixedFuelNames: seq<string> := ["Gasolina Especial", "Diésel", "Gas"]

  /** The three fuels every mapped station gets, in this order. */
  function FixedFuels(): (fuels: seq<Fuel>)
    ensures |fuels| == 3
    ensures forall k :: 0 <= k < 3 ==> fuels[k].kind == FixedFuelNames[k] && fuels[k].icon == FuelIcon(FixedFuelNames[k])
  {
    [Fuel("Gasolina Especial", FuelIcon("Gasolina Especial")),
     Fuel("Diésel", FuelIcon("Diésel")),
     Fuel("Gas", FuelIcon("Gas"))]
  }

  /** The fixed fuels are shown with the gasoline, diesel and gas icons. */
  lemma FixedFuelIcons()
    ensures [FixedFuels()[0].icon, FixedFuels()[1].icon, FixedFuels()[2].icon] == [Gasoline, Diesel, Gas]
  {
    assert Text.ToLower("Gasolina Especial") == "gasolina especial";
    assert Text.ToLower("Diésel") == "diésel";
    assert Text.ToLower("Gas") == "gas";
  }

  /** One element of the response list, or None when it is null or undefined
      (reading a property of it throws). */
  function MapStation(est: Value): (r: Option<PublicStation>)
    ensures r.None? <==> est.Undefined? || est.Null?
    ensures r.Some? ==> r.value.id == GetOpt(est, "idFuelStation") && r.value.name == GetOpt(est, "name")
    ensures r.Some? ==> r.value.address == GetOpt(est, "address")
    ensures r.Some? ==> r.value.gpsLatitude == GetOpt(est, "gpsLatitude")
                        && r.value.gpsLongitude == GetOpt(est, "gpsLongitude")
    ensures r.Some? ==> r.value.fuels == FixedFuels()
  {
    if est.Undefined? || est.Null? then None
    else Some(PublicStation(GetOpt(est, "idFuelStation"), GetOpt(est, "name"), GetOpt(est, "address"),
                            GetOpt(est, "gpsLatitude"), GetOpt(est, "gpsLongitude"), FixedFuels()))
  }

  /** `data.map(...)`: every element mapped in order, or None when one of
      them throws. */
  function MapStations(items: seq<Value>): (r: Option<seq<PublicStation>>)
    ensures r.None? <==> exists k :: 0 <= k < |items| && (items[k].Undefined? || items[k].Null?)
    ensures r.Some? ==> |r.value| == |items|
    ensures r.Some? ==> forall k :: 0 <= k < |items| ==> Some(r.value[k]) == MapStation(items[k])
  {
    if items == [] then Some([])
    else
      match MapStation(items[0])
      case None => None
      case Some(first) =>
        match MapStations(items[1..])
        case None =>
          assert exists k :: 0 <= k < |items[1..]| && (items[1..][k].Undefined? || items[1..][k].Null?);
          var k :| 0 <= k < |items[1..]| && (items[1..][k].Undefined? || items[1..][k].Null?);
          assert items[k + 1] == items[1..][k];
          None
        case Some(rest) =>
          assert forall k :: 1 <= k < |items| ==> items[k] == items[1..][k - 1];
          Some([first] + rest)
  }

  /** The list the page keeps from a response `responseStations`: None when
      reading `data` or mapping it throws. */
  function StationsFrom(response: Value): (r: Option<seq<PublicStation>>)
    ensures r.Some? ==> Get(response, "data").Some? && Get(response, "data").value.Arr?
    ensures r.Some? ==> r == MapStations(Get(response, "data").value.items)
    ensures Get(response, "data").Some? && Get(response, "data").value.Arr? ==>
              r == MapStations(Get(response, "data").value.items)
  {
    match Get(response, "data")
    case None => None
    case Some(data) => if data.Arr? then MapStations(data.items) else None
  }

  /** `estacion.gpsLatitude && estacion.gpsLongitude`: both coordinates truthy
      (a coordinate of exactly 0 hides the button). */
  predicate OffersMap(s: PublicStation) {
    Truthy(s.gpsLatitude) && Truthy(s.gpsLongitude)
  }

  class StationsView {
    var stations: seq<PublicStation>
    var loading: bool
    var selected: Option<PublicStation>

    constructor ()
      ensures stations == [] && loading && selected.None?
    {
      stations := [];
      loading := true;
      selected := None;
    }

    /** The modal is open when a station is selected and offers a map. */
    function ModalShown(): (shown: bool)
      reads this
      ensures shown ==> selected.Some? && OffersMap(selected.value)
    {
      selected.Some? && OffersMap(selected.value)
    }

    /** The load effect: a rejected call (None) or a response whose mapping
        throws leaves the list as it was; loading ends false either way. */
    method Load(response: Option<Value>)
      modifies this
      ensures !loading && selected == old(selected)
      ensures response.Some? && StationsFrom(response.value).Some? ==> stations == StationsFrom(response.value).value
      ensures response.None? || StationsFrom(response.value).None? ==> stations == old(stations)
    {
      if response.Some? {
        var mapped := StationsFrom(response.value);
        if mapped.Some? {
          stations := mapped.value;
        }
      }
      loading := false;
    }

    /** "Ver Mapa" on the station at `k`, shown only when it offers a map. */
    method OpenMap(k: nat)
      requires k < |stations| && OffersMap(stations[k])
      modifies this
      ensures selected == Some(old(stations)[k]) && ModalShown()
      ensures stations == old(stations) && loading == old(loading)
    {
      selected := Some(stations[k]);
    }

    /** "Cerrar": the modal closes. */
    method CloseMap()
      modifies this
      ensures selected.None? && !ModalShown()
      ensures stations == old(stations) && loading == old(loading)
    {
      selected := None;
    }
  }
}

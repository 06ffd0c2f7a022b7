/** The top-level coordinator: the shop list, the selected shop, the loading
    flag and banner error, add mode and the location picked for a new shop.
    Each handler is one atomic step; the outcome of any server call it
    awaits is a parameter, and the calls it makes are returned in order. */
module AppState {
  import opened Outcomes
  import opened Models
  import opened ClientTypes

  const ShopsFetchFailed := "店舗データの取得に失敗しました"

  /** A clicked map position. */
  datatype LatLng = LatLng(lat: Coordinate, lng: Coordinate)

  /** A call the coordinator makes to the API client. */
  datatype ApiCall = GetShops | CreateShop(input: ShopInput)

  class App {
    var shops: seq<Shop>
    var selectedShop: Option<Shop>
    var loading: bool
    var error: Option<string>
    var isAddMode: bool
    var newShopLocation: Option<LatLng>

    /** Add mode and selection exclude each other, and a location is only
        pending in add mode. */
    ghost predicate Valid()
      reads this
    {
      && (isAddMode ==> selectedShop.None?)
      && (!isAddMode ==> newShopLocation.None?)
    }

    /** The registration form is on screen exactly while a location is
        pending; by Valid() that is only ever in add mode. */
    predicate ShowsShopForm()
      reads this
    {
      newShopLocation.Some?
    }

    /** The first render: nothing loaded yet, browsing, nothing selected. */
    constructor ()
      ensures Valid()
      ensures shops == [] && selectedShop == None && loading && error == None
      ensures !isAddMode && newShopLocation == None
    {
      shops := [];
      selectedShop := None;
      loading := true;
      error := None;
      isAddMode := false;
      newShopLocation := None;
    }

    /** `fetchShops`, run once after the first render and again after a shop
        is registered. A `null` list counts as empty; a failure keeps the
        shops already shown and sets the banner; loading ends either way. */
    method FetchShops(response: Settled<Option<seq<Shop>>>) returns (calls: seq<ApiCall>)
      modifies this`shops, this`error, this`loading
      ensures calls == [GetShops]
      ensures !loading
      ensures response.Fulfilled? ==> shops == OrEmpty(response.value) && error == None
      ensures response.Rejected? ==> shops == old(shops) && error == Some(ShopsFetchFailed)
    {
      calls := [GetShops];
      if response.Fulfilled? {
        shops := OrEmpty(response.value);
        error := None;
      } else {
        error := Some(ShopsFetchFailed);
      }
      loading := false;
    }

    /** `handleShopSelect`: a marker click selects its shop, except in add
        mode, where it is ignored. */
    method HandleShopSelect(shop: Shop)
      requires Valid()
      modifies this`selectedShop
      ensures Valid()
      ensures !isAddMode ==> selectedShop == Some(shop)
      ensures isAddMode ==> selectedShop == old(selectedShop)
    {
      if !isAddMode {
        selectedShop := Some(shop);
      }
    }

    /** `handleMapClick`: in add mode the click becomes the pending location,
        replacing any earlier one; otherwise it is ignored. */
    method HandleMapClick(lat: Coordinate, lng: Coordinate)
      requires Valid()
      modifies this`newShopLocation
      ensures Valid()
      ensures isAddMode ==> newShopLocation == Some(LatLng(lat, lng))
      ensures !isAddMode ==> newShopLocation == old(newShopLocation)
    {
      if isAddMode {
        newShopLocation := Some(LatLng(lat, lng));
      }
    }

    /** `handleAddModeToggle`: flips the mode and drops the pending location;
        entering add mode also clears the selection, leaving it keeps it. */
    method HandleAddModeToggle()
      requires Valid()
      modifies this`isAddMode, this`newShopLocation, this`selectedShop
      ensures Valid()
      ensures isAddMode == !old(isAddMode)
      ensures newShopLocation == None
      ensures isAddMode ==> selectedShop == None
      ensures !isAddMode ==> selectedShop == old(selectedShop)
    {
      var wasAddMode := isAddMode;
      isAddMode := !wasAddMode;
      newShopLocation := None;
      if !wasAddMode {
        selectedShop := None;
      }
    }

    /** `handleShopSubmit`: create the shop; if that throws, the exception
        reaches the form and nothing here changes. Otherwise refetch the
        list (whose own failure is caught inside), drop the pending location
        and return to browsing. */
    method HandleShopSubmit(shopData: ShopInput, created: Settled<Shop>, refetched: Settled<Option<seq<Shop>>>)
      returns (thrown: bool, calls: seq<ApiCall>)
      requires Valid()
      modifies this
      ensures Valid()
      ensures thrown <==> created.Rejected?
      ensures thrown ==> calls == [CreateShop(shopData)]
      ensures thrown ==> shops == old(shops) && error == old(error) && loading == old(loading)
      ensures thrown ==> isAddMode == old(isAddMode) && newShopLocation == old(newShopLocation)
      ensures !thrown ==> calls == [CreateShop(shopData), GetShops]
      ensures !thrown ==> !isAddMode && newShopLocation == None && !loading
      ensures !thrown && refetched.Fulfilled? ==> shops == OrEmpty(refetched.value) && error == None
      ensures !thrown && refetched.Rejected? ==> shops == old(shops) && error == Some(ShopsFetchFailed)
      ensures selectedShop == old(selectedShop)
    {
      calls := [CreateShop(shopData)];
      if created.Rejected? {
        thrown := true;
        return;
      }
      var fetchCalls := FetchShops(refetched);
      calls := calls + fetchCalls;
      newShopLocation := None;
      isAddMode := false;
      thrown := false;
    }

    /** `handleShopFormCancel`: drop the pending location but stay in add
        mode, so another point can be picked at once. */
    method HandleShopFormCancel()
      requires Valid()
      modifies this`newShopLocation
      ensures Valid()
      ensures newShopLocation == None
    {
      newShopLocation := None;
    }
  }

  /** Entering add mode from any valid state, whatever was selected, gives
      add mode with no selection and no pending location; a marker click
      there changes nothing, and only a map click brings up the form. */
  method AddModeScenario(app: App, shop: Shop, lat: Coordinate, lng: Coordinate)
    requires app.Valid() && !app.isAddMode
    modifies app
  {
    app.HandleAddModeToggle();
    assert app.isAddMode && app.selectedShop == None && app.newShopLocation == None;
    app.HandleShopSelect(shop);
    assert app.selectedShop == None && !app.ShowsShopForm();
    app.HandleMapClick(lat, lng);
    assert app.ShowsShopForm() && app.newShopLocation == Some(LatLng(lat, lng));
    app.HandleAddModeToggle();
    assert !app.isAddMode && !app.ShowsShopForm() && app.selectedShop == None;
  }
}

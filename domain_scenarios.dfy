/**
 * The given/when/then scenarios of the domain tests, each stated as a lemma over the
 * harness of module Specification and the deciders and views of module Domain.
 */
module DomainScenarios {
  import opened Wrappers
  import opened Api
  import opened Domain
  import opened StateMachine
  import opened Specification

  const restaurantId: RestaurantId := "691490bb-c4d3-45b8-99d0-efcf20e353ao"
  const orderId: OrderId := "691490bb-c4d3-45b8-99d0-efcf20e353ag"
  const menuId: RestaurantMenuId := "34110e19-ca72-45e7-b969-61bebf54da08"

  const firstItems: seq<MenuItem> :=
    [MenuItem("1", "Salad", "8.99"), MenuItem("2", "Soup", "6.99"), MenuItem("3", "Steak", "19.99")]
  const secondItems: seq<MenuItem> :=
    [MenuItem("1", "Salad2", "18.59"), MenuItem("2", "Soup2", "16.94"), MenuItem("3", "Steak2", "19.89")]

  const firstMenu: RestaurantMenu := RestaurantMenu(firstItems, menuId, Serbian)
  const secondMenu: RestaurantMenu := RestaurantMenu(secondItems, menuId, Serbian)

  const createRestaurant: RestaurantCommand := CreateRestaurantCommand(restaurantId, "Eat at Joes", firstMenu)
  const changeRestaurantMenu: RestaurantCommand := ChangeRestaurantMenuCommand(restaurantId, secondMenu)
  const placeOrder: RestaurantCommand := PlaceOrderCommand(restaurantId, orderId, secondItems)
  const createOrder: OrderCommand := CreateOrderCommand(orderId, restaurantId, secondItems)
  const markOrderAsPrepared: OrderCommand := MarkOrderAsPreparedCommand(orderId)

  const restaurantCreated: RestaurantEvent := RestaurantCreatedEvent(1, restaurantId, "Eat at Joes", firstMenu, false)
  const restaurantMenuChanged: RestaurantEvent := RestaurantMenuChangedEvent(1, restaurantId, secondMenu, false)
  const restaurantOrderPlaced: RestaurantEvent := RestaurantOrderPlacedEvent(1, restaurantId, orderId, secondItems, false)
  const restaurantOrderNotPlaced: RestaurantEvent :=
    RestaurantOrderNotPlacedEvent(1, restaurantId, orderId, secondItems, RestaurantDoesNotExist, false)
  const orderCreated: OrderEvent := OrderCreatedEvent(1, orderId, restaurantId, secondItems, false)
  const orderPrepared: OrderEvent := OrderPreparedEvent(1, orderId, false)

  lemma CreateRestaurantScenario()
    ensures DeciderThen(restaurantDecider, [], createRestaurant, [restaurantCreated])
  {
  }

  lemma CreateRestaurantTwiceScenario()
    ensures DeciderThen(restaurantDecider, [restaurantCreated], createRestaurant,
                        [RestaurantNotCreatedEvent(1, restaurantId, "Eat at Joes", firstMenu, RestaurantAlreadyExist, false)])
  {
    FoldOne(RestaurantEvolve, None, restaurantCreated);
  }

  lemma ChangeRestaurantMenuScenario()
    ensures DeciderThen(restaurantDecider, [restaurantCreated], changeRestaurantMenu, [restaurantMenuChanged])
  {
    FoldOne(RestaurantEvolve, None, restaurantCreated);
  }

  lemma ChangeMenuOfMissingRestaurantScenario()
    ensures DeciderThen(restaurantDecider, [], changeRestaurantMenu,
                        [RestaurantMenuNotChangedEvent(1, restaurantId, secondMenu, RestaurantDoesNotExist, false)])
  {
  }

  lemma PlaceOrderScenario()
    ensures DeciderThen(restaurantDecider, [restaurantCreated], placeOrder, [restaurantOrderPlaced])
  {
    FoldOne(RestaurantEvolve, None, restaurantCreated);
  }

  lemma PlaceOrderWithoutRestaurantScenario()
    ensures DeciderThen(restaurantDecider, [], placeOrder, [restaurantOrderNotPlaced])
  {
  }

  lemma CreateOrderScenario()
    ensures DeciderThen(orderDecider, [], createOrder, [orderCreated])
  {
  }

  lemma MarkOrderAsPreparedScenario()
    ensures DeciderThen(orderDecider, [orderCreated], markOrderAsPrepared, [orderPrepared])
  {
    FoldOne(OrderEvolve, None, orderCreated);
  }

  lemma RestaurantCreatedViewScenario()
    ensures ViewThen(restaurantView, [restaurantCreated], Some(Restaurant(Some(restaurantId), "Eat at Joes", firstMenu)))
  {
    FoldOne(RestaurantViewEvolve, None, restaurantCreated);
  }

  lemma RestaurantMenuChangedViewScenario()
    ensures ViewThen(restaurantView, [restaurantCreated, restaurantMenuChanged],
                     Some(Restaurant(Some(restaurantId), "Eat at Joes", secondMenu)))
  {
    FoldOne(RestaurantViewEvolve, None, restaurantCreated);
    FoldSnoc(RestaurantViewEvolve, None, [restaurantCreated], restaurantMenuChanged);
    assert [restaurantCreated] + [restaurantMenuChanged] == [restaurantCreated, restaurantMenuChanged];
  }

  lemma OrderPreparedViewScenario()
    ensures ViewThen(orderView, [orderCreated, orderPrepared],
                     Some(Order(Some(orderId), restaurantId, secondItems, Prepared)))
  {
    FoldOne(OrderViewEvolve, None, orderCreated);
    FoldSnoc(OrderViewEvolve, None, [orderCreated], orderPrepared);
    assert [orderCreated] + [orderPrepared] == [orderCreated, orderPrepared];
  }
}

/**
 * The part of `Car.model.js` that `/add-cars` and `updateDealershipCars`
 * depend on: creating a car under a fresh id, and the two lookups.
 */
module Cars {
  import opened Wrappers
  import opened Store

  /** The fields `createCar` takes from the request body. */
  datatype CarFields = CarFields(carType: Option<string>, name: string, model: Option<string>, info: Option<string>)

  class CarModel {
    const collection: CarCollection

    constructor(db: Database)
      ensures collection == db.cars
    {
      collection := db.cars;
    }

    /**
     * `createCar(fields)` with `freshId` as the uuid: the stored car, or
     * "Car already exists" when the id or the name is taken.
     */
    method CreateCar(fields: CarFields, freshId: string) returns (r: Result<Car, string>)
      requires collection.Valid()
      modifies collection
      ensures collection.Valid()
      ensures var car := Car(freshId, fields.carType, fields.name, fields.model, fields.info);
        && (r.Success? <==> fields.name !in old(collection.idByName) && freshId !in old(collection.docs))
        && (r.Success? ==> r.value == car && collection.docs == old(collection.docs)[freshId := car])
        && (r.Failure? ==>
              r.error == "Car already exists" && collection.docs == old(collection.docs)
              && collection.idByName == old(collection.idByName))
    {
      var car := Car(freshId, fields.carType, fields.name, fields.model, fields.info);
      var ok := collection.InsertOne(car);
      if !ok {
        return Failure("Car already exists");
      }
      return Success(car);
    }

    /** `findCarById({car_id})`. */
    function FindCarById(id: Option<string>): (r: Option<Car>)
      reads collection
      requires collection.Valid()
      ensures r.Some? <==> id.Some? && id.value in collection.docs
      ensures r.Some? ==> r.value.id == id.value
      ensures r.Some? ==> r.value == collection.docs[id.value]
    {
      collection.FindById(id)
    }

    /** `findCarByName(car_name)`. */
    function FindCarByName(name: string): (r: Option<Car>)
      reads collection
      requires collection.Valid()
      ensures r.Some? <==> name in collection.idByName
      ensures r.Some? ==> r.value.name == name
      ensures r.Some? ==> r.value.id in collection.docs && collection.docs[r.value.id] == r.value
    {
      collection.FindByName(name)
    }
  }
}

/**
 * The `customer_data` tool: get, update and delete on the locally stored
 * customer record, a string-keyed JSON object.
 *
 * Loading the record and saving it are file I/O; the model takes the loaded
 * record as input and returns the record the call writes back, if any.
 */
module Customer {
  import opened Wrappers
  import opened Text

  /** A JSON value of the record: a string, an object, or any other JSON value. */
  datatype Value = Str(s: string) | Obj(fields: map<string, Value>) | Other(json: string)

  type Record = map<string, Value>

  /** The JSON document the tool returns. */
  datatype Reply =
    | WholeRecord(record: Record)                                       // the record itself
    | FieldReply(field: string, value: Value)                          // {"field", "value"}
    | StatusReply(status: string, message: string, data: Option<Record>)  // {"status", "message", "data"?}
    | ErrorReply(error: string)                                        // {"error"}

  /** A call's reply and the record it saves (`None` when it saves nothing). */
  datatype Handled = Handled(reply: Reply, saved: Option<Record>)

  // ------------------------------------------------------------------
  // update

  /** The stored address under `key` names a street. */
  predicate HasStreet(record: Record, key: string)
  {
    key in record && record[key].Obj? && "street" in record[key].fields
  }

  /** The address stored for `key`: the new one, which inherits `address1` from the old
   *  address's `street` when it names no `address1` of its own. */
  function CarryStreet(record: Record, key: string, address: map<string, Value>): (r: map<string, Value>)
    ensures r.Keys == address.Keys + (if HasStreet(record, key) then {"address1"} else {})
    ensures forall a | a in address :: r[a] == address[a]
    ensures "address1" !in address && HasStreet(record, key) ==> r["address1"] == record[key].fields["street"]
  {
    if HasStreet(record, key) && "address1" !in address
    then address["address1" := record[key].fields["street"]]
    else address
  }

  /** The `field`/`value` write, made only when both are given. */
  function SetField(record: Record, field: Option<string>, value: Option<Value>): Record
  {
    if field.Some? && value.Some? then record[field.value := value.value] else record
  }

  /** An address write under `key`, made only when an address is given. */
  function SetAddress(record: Record, key: string, address: Option<map<string, Value>>): Record
  {
    if address.Some? then record[key := Obj(CarryStreet(record, key, address.value))] else record
  }

  /** The record after an update: the field write, then the shipping address, then the
   *  billing address, then each custom field. */
  function UpdatedRecord(record: Record, field: Option<string>, value: Option<Value>,
                         shipping: Option<map<string, Value>>, billing: Option<map<string, Value>>,
                         custom: Option<map<string, Value>>): Record
  {
    var afterField := SetField(record, field, value);
    var afterShipping := SetAddress(afterField, "shipping_address", shipping);
    var afterBilling := SetAddress(afterShipping, "billing_address", billing);
    if custom.Some? then afterBilling + custom.value else afterBilling
  }

  /** Some write of the update applies (an empty `custom_fields` writes nothing). */
  predicate AnyUpdate(field: Option<string>, value: Option<Value>, shipping: Option<map<string, Value>>,
                      billing: Option<map<string, Value>>, custom: Option<map<string, Value>>)
  {
    (field.Some? && value.Some?) || shipping.Some? || billing.Some? || (custom.Some? && |custom.value| > 0)
  }

  // ------------------------------------------------------------------
  // The tool

  /** What `customer_data` replies and saves, given the loaded record. */
  function CustomerDataOf(operation: string, field: Option<string>, value: Option<Value>,
                          shipping: Option<map<string, Value>>, billing: Option<map<string, Value>>,
                          custom: Option<map<string, Value>>, record: Record): (h: Handled)
    ensures Lower(operation) == "get" ==> h.saved.None?
    ensures Lower(operation) == "get" && field.None? ==> h.reply == WholeRecord(record)
    ensures Lower(operation) == "get" && field.Some? ==>
              h.reply == FieldReply(field.value, if field.value in record then record[field.value] else Str(""))
    ensures Lower(operation) == "update" ==> (h.saved.Some? <==> AnyUpdate(field, value, shipping, billing, custom))
    ensures Lower(operation) == "update" && h.saved.None? ==> h.reply == ErrorReply("No updates provided")
    ensures Lower(operation) == "update" && h.saved.Some? ==>
              h.reply == StatusReply("success", "Customer data updated", h.saved)
    ensures Lower(operation) == "update" && h.saved.Some? ==>
              h.saved == Some(UpdatedRecord(record, field, value, shipping, billing, custom))
    ensures Lower(operation) == "delete" && field.None? ==>
              h == Handled(StatusReply("success", "All customer data deleted", None), Some(map[]))
    ensures Lower(operation) == "delete" && field.Some? ==> (h.saved.Some? <==> field.value in record)
    ensures Lower(operation) == "delete" && field.Some? && field.value in record ==>
              h.saved == Some(record - {field.value})
              && h.reply == StatusReply("success", "Field '" + field.value + "' deleted", h.saved)
    ensures Lower(operation) == "delete" && field.Some? && field.value !in record ==>
              h.reply == StatusReply("warning", "Field '" + field.value + "' not found", None)
    ensures Lower(operation) !in {"get", "update", "delete"} ==>
              h == Handled(ErrorReply("Unknown operation: " + operation), None)
  {
    var op := Lower(operation);
    if op == "get" then GetOf(field, record)
    else if op == "update" then UpdateOf(field, value, shipping, billing, custom, record)
    else if op == "delete" then DeleteOf(field, record)
    else Handled(ErrorReply("Unknown operation: " + operation), None)
  }

  function GetOf(field: Option<string>, record: Record): Handled
  {
    if field.None? then Handled(WholeRecord(record), None)
    else Handled(FieldReply(field.value, if field.value in record then record[field.value] else Str("")), None)
  }

  function UpdateOf(field: Option<string>, value: Option<Value>,
                    shipping: Option<map<string, Value>>, billing: Option<map<string, Value>>,
                    custom: Option<map<string, Value>>, record: Record): Handled
  {
    if AnyUpdate(field, value, shipping, billing, custom) then
      var updated := UpdatedRecord(record, field, value, shipping, billing, custom);
      Handled(StatusReply("success", "Customer data updated", Some(updated)), Some(updated))
    else Handled(ErrorReply("No updates provided"), None)
  }

  function DeleteOf(field: Option<string>, record: Record): Handled
  {
    if field.None? then Handled(StatusReply("success", "All customer data deleted", None), Some(map[]))
    else if field.value in record then
      var remaining := record - {field.value};
      Handled(StatusReply("success", "Field '" + field.value + "' deleted", Some(remaining)), Some(remaining))
    else Handled(StatusReply("warning", "Field '" + field.value + "' not found", None), None)
  }

  lemma UnionUpdate(a: Record, b: Record, k: string, v: Value)
    ensures (a + b)[k := v] == a + b[k := v]
  {
  }

  /** The custom-fields loop: each entry is written into the record. */
  method WriteCustomFields(record: Record, custom: map<string, Value>) returns (updated: Record, written: bool)
    ensures updated == record + custom
    ensures written <==> |custom| > 0
  {
    updated, written := record, false;
    var remaining := custom.Keys;
    ghost var done: map<string, Value> := map[];
    while remaining != {}
      invariant remaining <= custom.Keys
      invariant done.Keys == custom.Keys - remaining
      invariant forall k | k in done :: done[k] == custom[k]
      invariant updated == record + done
      invariant written <==> done != map[]
      decreases |remaining|
    {
      var key :| key in remaining;
      UnionUpdate(record, done, key, custom[key]);
      updated := updated[key := custom[key]];
      done := done[key := custom[key]];
      written := true;
      remaining := remaining - {key};
    }
    assert done == custom;
  }

  /** The writes of an update, in the order the code makes them. */
  method ApplyUpdates(field: Option<string>, value: Option<Value>,
                      shipping: Option<map<string, Value>>, billing: Option<map<string, Value>>,
                      custom: Option<map<string, Value>>, record: Record)
    returns (data: Record, updatesMade: bool)
    ensures data == UpdatedRecord(record, field, value, shipping, billing, custom)
    ensures updatesMade == AnyUpdate(field, value, shipping, billing, custom)
  {
    data, updatesMade := record, false;
    if field.Some? && value.Some? {
      data := data[field.value := value.value];
      updatesMade := true;
    }
    assert data == SetField(record, field, value);
    ghost var afterField := data;
    if shipping.Some? {
      data := data["shipping_address" := Obj(CarryStreet(data, "shipping_address", shipping.value))];
      updatesMade := true;
    }
    assert data == SetAddress(afterField, "shipping_address", shipping);
    ghost var afterShipping := data;
    if billing.Some? {
      data := data["billing_address" := Obj(CarryStreet(data, "billing_address", billing.value))];
      updatesMade := true;
    }
    assert data == SetAddress(afterShipping, "billing_address", billing);
    if custom.Some? {
      var written;
      data, written := WriteCustomFields(data, custom.value);
      updatesMade := updatesMade || written;
    }
  }

  /** `customer_data`: the operation name is matched case-insensitively. */
  method CustomerData(operation: string, field: Option<string>, value: Option<Value>,
                      shipping: Option<map<string, Value>>, billing: Option<map<string, Value>>,
                      custom: Option<map<string, Value>>, record: Record)
    returns (reply: Reply, saved: Option<Record>)
    ensures Handled(reply, saved) == CustomerDataOf(operation, field, value, shipping, billing, custom, record)
  {
    var op := Lower(operation);
    if op == "get" {
      reply, saved := Get(field, record);
    } else if op == "update" {
      reply, saved := Update(field, value, shipping, billing, custom, record);
    } else if op == "delete" {
      reply, saved := Delete(field, record);
    } else {
      reply, saved := ErrorReply("Unknown operation: " + operation), None;
    }
  }

  method Get(field: Option<string>, data: Record) returns (reply: Reply, saved: Option<Record>)
    ensures Handled(reply, saved) == GetOf(field, data)
  {
    if field.None? {
      return WholeRecord(data), None;
    }
    return FieldReply(field.value, if field.value in data then data[field.value] else Str("")), None;
  }

  method Update(field: Option<string>, value: Option<Value>,
                shipping: Option<map<string, Value>>, billing: Option<map<string, Value>>,
                custom: Option<map<string, Value>>, record: Record)
    returns (reply: Reply, saved: Option<Record>)
    ensures Handled(reply, saved) == UpdateOf(field, value, shipping, billing, custom, record)
  {
    var data, updatesMade := ApplyUpdates(field, value, shipping, billing, custom, record);
    if updatesMade {
      return StatusReply("success", "Customer data updated", Some(data)), Some(data);
    }
    return ErrorReply("No updates provided"), None;
  }

  method Delete(field: Option<string>, record: Record) returns (reply: Reply, saved: Option<Record>)
    ensures Handled(reply, saved) == DeleteOf(field, record)
  {
    var data := record;
    if field.None? {
      return StatusReply("success", "All customer data deleted", None), Some(map[]);
    }
    if field.value in data {
      data := data - {field.value};
      return StatusReply("success", "Field '" + field.value + "' deleted", Some(data)), Some(data);
    }
    return StatusReply("warning", "Field '" + field.value + "' not found", None), None;
  }

  // ------------------------------------------------------------------
  // Properties of an update and a delete

  /** Later writes win: a key of the updated record holds its custom field if any, else
   *  the new address if it is one, else the field write, else the stored value; and the
   *  record gains exactly the written keys. */
  lemma UpdateLastWriteWins(record: Record, field: Option<string>, value: Option<Value>,
                            shipping: Option<map<string, Value>>, billing: Option<map<string, Value>>,
                            custom: Option<map<string, Value>>, k: string)
    ensures var r := UpdatedRecord(record, field, value, shipping, billing, custom);
      var inCustom := custom.Some? && k in custom.value;
      var isAddress := (k == "shipping_address" && shipping.Some?) || (k == "billing_address" && billing.Some?);
      var isField := field == Some(k) && value.Some?;
      && (k in r <==> k in record || inCustom || isAddress || isField)
      && (inCustom ==> r[k] == custom.value[k])
      && (!inCustom && k == "shipping_address" && shipping.Some? ==>
            r[k] == Obj(CarryStreet(SetField(record, field, value), k, shipping.value)))
      && (!inCustom && k == "billing_address" && billing.Some? ==>
            r[k] == Obj(CarryStreet(SetAddress(SetField(record, field, value), "shipping_address", shipping), k, billing.value)))
      && (!inCustom && !isAddress && isField ==> r[k] == value.value)
      && (!inCustom && !isAddress && !isField && k in record ==> r[k] == record[k])
  {
  }

  /** A new shipping address without `address1` takes `address1` from the stored
   *  address's `street`; the keys it brings keep their values. */
  lemma ShippingInheritsStreet(record: Record, address: map<string, Value>,
                               billing: Option<map<string, Value>>, custom: Option<map<string, Value>>)
    requires HasStreet(record, "shipping_address") && "address1" !in address
    requires !(custom.Some? && "shipping_address" in custom.value)
    ensures var r := UpdatedRecord(record, None, None, Some(address), billing, custom);
      && r["shipping_address"].Obj?
      && r["shipping_address"].fields["address1"] == record["shipping_address"].fields["street"]
      && forall a | a in address :: r["shipping_address"].fields[a] == address[a]
  {
    UpdateLastWriteWins(record, None, None, Some(address), billing, custom, "shipping_address");
  }

  /** Deleting a present field removes that key alone; every other key keeps its value. */
  lemma DeleteRemovesOnlyField(operation: string, field: string, record: Record, k: string)
    requires Lower(operation) == "delete" && field in record
    ensures var h := CustomerDataOf(operation, Some(field), None, None, None, None, record);
      && h.saved.Some?
      && field !in h.saved.value
      && (k != field ==> (k in h.saved.value <==> k in record) && (k in record ==> h.saved.value[k] == record[k]))
      && h.reply == StatusReply("success", "Field '" + field + "' deleted", h.saved)
  {
  }

  /** Operation names are matched without regard to ASCII case. */
  lemma OperationCaseInsensitive(op1: string, op2: string, field: Option<string>, value: Option<Value>,
                                 shipping: Option<map<string, Value>>, billing: Option<map<string, Value>>,
                                 custom: Option<map<string, Value>>, record: Record)
    requires Lower(op1) == Lower(op2)
    requires Lower(op1) in {"get", "update", "delete"}
    ensures CustomerDataOf(op1, field, value, shipping, billing, custom, record)
         == CustomerDataOf(op2, field, value, shipping, billing, custom, record)
  {
  }
}

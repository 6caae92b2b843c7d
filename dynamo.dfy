/**
 * DynamoDB's low-level attribute-value format, as the backend's
 * `boto3.client("dynamodb")` calls send and receive it: every attribute is a
 * one-key dict naming its type ({"S": ...}, {"N": ...}, {"M": ...}, ...).
 */
module Dynamo {
  import opened Lib

  datatype AttrValue =
    | S(s: string)
    | N(n: string)
    | BOOL(b: bool)
    | M(m: map<string, AttrValue>)
    | L(l: seq<AttrValue>)
    | NULL

  type Item = map<string, AttrValue>

  /** `item.get(key, {}).get("S")` */
  function GetS(item: Item, key: string): Option<string> {
    if key in item && item[key].S? then Some(item[key].s) else None
  }

  /** `item.get(key, {}).get("S", default)` */
  function GetSOr(item: Item, key: string, default: string): string {
    if key in item && item[key].S? then item[key].s else default
  }

  /** `item.get(key, {}).get("N")` */
  function GetN(item: Item, key: string): Option<string> {
    if key in item && item[key].N? then Some(item[key].n) else None
  }
}

/** The records the catalogue loads from its JSON shards. Only the fields that the
    filtering, sorting and frame rules read are kept; the purely displayed ones
    (buy price, chance, collection name) are not. A field missing from the JSON
    object, or null, is None. */
module Tradeups {
  import opened Wrappers

  /** One entry of `input_skins` or `output_skins`. */
  datatype Skin = Skin(
    name: Option<string>,
    image: Option<string>,
    float: Option<real>,
    times: Option<real>,
    sellPrice: Option<real>)

  /** One trade-up record. `inputs`/`outputs` are None when the field is absent or not an array. */
  datatype Tradeup = Tradeup(
    cost: Option<real>,
    meanProfit: Option<real>,
    odds: Option<real>,
    profitability: Option<real>,
    inputs: Option<seq<Skin>>,
    outputs: Option<seq<Skin>>)
}

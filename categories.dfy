/** CategoryService: the list of categories a wallet can be filed under. */
module Categories {
  import opened Results
  import opened Errors

  datatype Category = Category(id: int, name: string)

  /**
   * categoryDTOList over the rows categoryDAO.findAll() returns: an empty
   * table is an error, otherwise the rows come back as they are. Being a
   * function of the rows, the call cannot change them.
   */
  function CategoryList(rows: seq<Category>): (r: Result<seq<Category>, CategoryCode>)
    ensures r.Err? <==> |rows| == 0
    ensures r.Err? ==> r.error == CategoryNotFound
    ensures r.Ok? ==> r.value == rows && |r.value| > 0
  {
    if |rows| == 0 then Err(CategoryNotFound) else Ok(rows)
  }
}

/** One row of the `anggota_dpr` table, restricted to the columns the query layer reads. */
module Members {
  import opened Wrappers

  /** `nama` is declared NOT NULL; every other column may be NULL. `is_kader` and `is_dewan`
      are TEXT columns holding '0' or '1'. */
  datatype Member = Member(
    id: int,
    nama: string,
    fraksi: Option<string>,
    partai: Option<string>,
    dapil: Option<string>,
    ttl: Option<string>,
    agama: Option<string>,
    kota_lahir: Option<string>,
    usia: Option<int>,
    pendidikan_terakhir: Option<string>,
    is_kader: Option<string>,
    is_dewan: Option<string>)
}
